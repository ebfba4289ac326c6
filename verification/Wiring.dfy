/** How the children refer to one another: every name in one is that of another, or one the user gave. */
module Wiring {
  import opened Basics
  import opened Objects
  import opened Store
  import opened Names
  import opened Metadata
  import opened Builders
  import Finalizer
  import Merge
  import Stages
  import Tables

  ghost predicate Is(b: Builder, role: Role, kind: Kind, name: string) { b.role == role && b.key == Key(kind, name) }

  /** The operator writes an object of this kind and name in this role. */
  ghost predicate Written(rmq: Cluster, role: Role, kind: Kind, name: string) {
    exists b :: b in ResourceBuilders(rmq) && Is(b, role, kind, name)
  }

  lemma BaseMembers(rmq: Cluster)
    ensures var bs := ResourceBuilders(rmq);
            && HeadlessBuilder(rmq) in bs && ClientBuilder(rmq) in bs && CookieBuilder(rmq) in bs
            && (HasUserSecret(rmq) ==> UserBuilder(rmq) in bs)
            && PluginsBuilder(rmq) in bs && ServerConfBuilder(rmq) in bs && AccountBuilder(rmq) in bs
            && RoleBuilder(rmq) in bs && BindingBuilder(rmq) in bs
  {
    hide HeadlessBuilder, ClientBuilder, CookieBuilder, UserBuilder, PluginsBuilder, ServerConfBuilder, AccountBuilder;
    hide RoleBuilder, BindingBuilder, NodeBuilders, HasUserSecret;
    var a := [HeadlessBuilder(rmq), ClientBuilder(rmq), CookieBuilder(rmq)];
    var c := [PluginsBuilder(rmq), ServerConfBuilder(rmq), AccountBuilder(rmq), RoleBuilder(rmq), BindingBuilder(rmq)];
    assert forall b :: b in a || b in c ==> b in BaseBuilders(rmq);
    assert a[0] in a && a[1] in a && a[2] in a && c[0] in c && c[1] in c && c[2] in c && c[3] in c && c[4] in c;
  }

  lemma ServicesAre(rmq: Cluster)
    ensures Is(HeadlessBuilder(rmq), HeadlessService, KindService, ChildResourceName(rmq.name, "nodes"))
    ensures Is(ClientBuilder(rmq), ClientService, KindService, ChildResourceName(rmq.name, ""))
  {
    hide ChildResourceName;
  }

  lemma FilesAre(rmq: Cluster)
    ensures Is(CookieBuilder(rmq), ErlangCookie, KindSecret, ChildResourceName(rmq.name, "erlang-cookie"))
    ensures Is(UserBuilder(rmq), DefaultUserSecret, KindSecret, ChildResourceName(rmq.name, "default-user"))
    ensures Is(PluginsBuilder(rmq), PluginsConfigMap, KindConfigMap, ChildResourceName(rmq.name, "plugins-conf"))
    ensures Is(ServerConfBuilder(rmq), ServerConfigMap, KindConfigMap, ChildResourceName(rmq.name, "server-conf"))
  {
    hide ChildResourceName;
  }

  lemma RolesAre(rmq: Cluster)
    ensures Is(AccountBuilder(rmq), ServiceAccount, KindServiceAccount, ChildResourceName(rmq.name, "server"))
    ensures Is(RoleBuilder(rmq), PeerDiscoveryRole, KindRole, ChildResourceName(rmq.name, "peer-discovery"))
    ensures Is(BindingBuilder(rmq), RoleBinding, KindRoleBinding, ChildResourceName(rmq.name, "server"))
  {
    hide ChildResourceName;
  }

  lemma AllWritten(rmq: Cluster)
    ensures Written(rmq, HeadlessService, KindService, ChildResourceName(rmq.name, "nodes"))
    ensures Written(rmq, ClientService, KindService, ChildResourceName(rmq.name, ""))
    ensures Written(rmq, ErlangCookie, KindSecret, ChildResourceName(rmq.name, "erlang-cookie"))
    ensures rmq.spec.externalSecret == "" && !rmq.VaultDefaultUserSecretEnabled() ==>
              Written(rmq, DefaultUserSecret, KindSecret, ChildResourceName(rmq.name, "default-user"))
    ensures Written(rmq, PluginsConfigMap, KindConfigMap, ChildResourceName(rmq.name, "plugins-conf"))
    ensures Written(rmq, ServerConfigMap, KindConfigMap, ChildResourceName(rmq.name, "server-conf"))
    ensures Written(rmq, ServiceAccount, KindServiceAccount, ChildResourceName(rmq.name, "server"))
    ensures Written(rmq, PeerDiscoveryRole, KindRole, ChildResourceName(rmq.name, "peer-discovery"))
    ensures Written(rmq, RoleBinding, KindRoleBinding, ChildResourceName(rmq.name, "server"))
  {
    ServicesAre(rmq);
    FilesAre(rmq);
    RolesAre(rmq);
    BaseMembers(rmq);
    hide ResourceBuilders, ChildResourceName, HeadlessBuilder, ClientBuilder, CookieBuilder, UserBuilder;
    hide PluginsBuilder, ServerConfBuilder, AccountBuilder, RoleBuilder, BindingBuilder;
  }

  // ------------------------------------------------------------------- volumes

  /** A volume of this name whose source is one object that the operator writes. */
  ghost predicate Mounts(rmq: Cluster, v: Volume, name: string, source: string, role: Role, kind: Kind) {
    v.name == name && exists child :: Written(rmq, role, kind, child) && v.source == source + " " + child
  }

  /** The configuration is the server ConfigMap's and, unless vault injects the user, that of the user's secret. */
  ghost predicate Projects(rmq: Cluster, v: Volume) {
    && v.name == "rabbitmq-confd"
    && (exists conf :: Written(rmq, ServerConfigMap, KindConfigMap, conf) && Projected(rmq, v.source, conf))
  }

  ghost predicate Projected(rmq: Cluster, source: string, conf: string) {
    if rmq.spec.vault.Some? && rmq.spec.vault.value.defaultUserPath != "" then source == "projected " + conf
    else if rmq.spec.externalSecret != "" then source == "projected " + conf + " " + rmq.spec.externalSecret
    else
      exists user :: Written(rmq, DefaultUserSecret, KindSecret, user) && source == "projected " + conf + " " + user
  }

  /** The certificates are the user's secret and, when it is another one, the secret of the CA. */
  ghost predicate Certified(rmq: Cluster, v: Volume) {
    var pki := rmq.spec.vault.Some? && rmq.spec.vault.value.pkiIssuerPath != "";
    && v.name == "rabbitmq-tls"
    && v.source == if (rmq.spec.caSecret != "" || pki) && rmq.spec.caSecret != rmq.spec.tlsSecret
                   then "projected " + rmq.spec.tlsSecret + " " + rmq.spec.caSecret
                   else "projected " + rmq.spec.tlsSecret
  }

  predicate Scratch(v: Volume, name: string) { v == Volume(name, "emptyDir") }

  /** Any file that only the server-conf volume brings. */
  predicate MoreFiles(rmq: Cluster) {
    !(rmq.spec.advancedConfig == "" && rmq.spec.envConfig == "" && rmq.spec.erlangInetConfig == "")
  }

  lemma ConfSourceProjects(rmq: Cluster)
    ensures Projects(rmq, Volume("rabbitmq-confd", ConfSource(rmq)))
  {
    AllWritten(rmq);
    hide Written, ChildResourceName;
    var conf, user := ChildResourceName(rmq.name, "server-conf"), ChildResourceName(rmq.name, "default-user");
    assert Written(rmq, ServerConfigMap, KindConfigMap, conf);
    assert "projected " + conf + (" " + rmq.spec.externalSecret) == "projected " + conf + " " + rmq.spec.externalSecret;
    assert "projected " + conf + (" " + user) == "projected " + conf + " " + user;
    assert "projected " + conf + "" == "projected " + conf;
  }

  lemma TLSSourceCertifies(rmq: Cluster)
    requires rmq.spec.tlsSecret != ""
    ensures Certified(rmq, Volume("rabbitmq-tls", TLSSource(rmq)))
  {
    var tls, ca := rmq.spec.tlsSecret, rmq.spec.caSecret;
    assert "projected " + tls + (" " + ca) == "projected " + tls + " " + ca;
    assert "projected " + tls + "" == "projected " + tls;
  }

  lemma FixedVolumes(rmq: Cluster)
    ensures var vs := Volumes(rmq);
            && |vs| == 7 + Bit(rmq.spec.tlsSecret != "") + Bit(rmq.spec.storage == 0) + Bit(MoreFiles(rmq))
            && vs[0] == Volume("rabbitmq-confd", ConfSource(rmq)) && Scratch(vs[1], "rabbitmq-log")
            && Scratch(vs[2], "rabbitmq-plugins")
            && vs[3] == Volume("plugins-conf", "configMap " + ChildResourceName(rmq.name, "plugins-conf"))
            && Scratch(vs[4], "rabbitmq-erlang-cookie")
            && vs[5] == Volume("erlang-cookie-secret", "secret " + ChildResourceName(rmq.name, "erlang-cookie"))
            && vs[6] == Volume("pod-info", "downwardAPI")
  {
    hide ChildResourceName, ConfSource, TLSSource;
  }

  lemma FurtherVolumes(rmq: Cluster)
    ensures var vs, tls := Volumes(rmq), Bit(rmq.spec.tlsSecret != "");
            var more := tls + Bit(rmq.spec.storage == 0);
            && |vs| == 7 + more + Bit(MoreFiles(rmq))
            && (rmq.spec.tlsSecret != "" ==> vs[7] == Volume("rabbitmq-tls", TLSSource(rmq)))
            && (rmq.spec.storage == 0 ==> Scratch(vs[7 + tls], "persistence"))
            && (MoreFiles(rmq) ==>
                  vs[7 + more] == Volume("server-conf", "configMap " + ChildResourceName(rmq.name, "server-conf")))
  {
    hide ChildResourceName, ConfSource, TLSSource;
  }

  lemma MountsChild(rmq: Cluster, v: Volume, source: string, role: Role, kind: Kind, child: string)
    requires Written(rmq, role, kind, child) && v.source == source + " " + child
    ensures Mounts(rmq, v, v.name, source, role, kind)
  {
    hide Written;
  }

  /**
    What a node mounts comes from the objects that the operator itself writes, under the names it
    writes them, or from the secrets that the user names.
  */
  lemma VolumesResolve(rmq: Cluster)
    ensures var vs := Volumes(rmq);
            && |vs| >= 7 && Projects(rmq, vs[0]) && Scratch(vs[1], "rabbitmq-log") && Scratch(vs[2], "rabbitmq-plugins")
            && Mounts(rmq, vs[3], "plugins-conf", "configMap", PluginsConfigMap, KindConfigMap)
            && Scratch(vs[4], "rabbitmq-erlang-cookie")
            && Mounts(rmq, vs[5], "erlang-cookie-secret", "secret", ErlangCookie, KindSecret)
            && vs[6] == Volume("pod-info", "downwardAPI")
    ensures var vs, tls := Volumes(rmq), Bit(rmq.spec.tlsSecret != "");
            var more := tls + Bit(rmq.spec.storage == 0);
            && |vs| == 7 + more + Bit(MoreFiles(rmq))
            && (rmq.spec.tlsSecret != "" ==> Certified(rmq, vs[7]))
            && (rmq.spec.storage == 0 ==> Scratch(vs[7 + tls], "persistence"))
            && (MoreFiles(rmq) ==>
                  Mounts(rmq, vs[7 + more], "server-conf", "configMap", ServerConfigMap, KindConfigMap))
  {
    AllWritten(rmq);
    ConfSourceProjects(rmq);
    FixedVolumes(rmq);
    FurtherVolumes(rmq);
    hide Written, ChildResourceName, ConfSource, TLSSource, Projects, Certified, Mounts, Volumes;
    var vs := Volumes(rmq);
    assert "configMap " == "configMap" + " " && "secret " == "secret" + " ";
    MountsChild(rmq, vs[3], "configMap", PluginsConfigMap, KindConfigMap, ChildResourceName(rmq.name, "plugins-conf"));
    MountsChild(rmq, vs[5], "secret", ErlangCookie, KindSecret, ChildResourceName(rmq.name, "erlang-cookie"));
    if rmq.spec.tlsSecret != "" {
      TLSSourceCertifies(rmq);
    }
    if MoreFiles(rmq) {
      MountsChild(rmq, vs[|vs| - 1], "configMap", ServerConfigMap, KindConfigMap,
        ChildResourceName(rmq.name, "server-conf"));
    }
  }

  // ---------------------------------------------------------------- containers

  /** What a container mounts besides what every node mounts. */
  function MountedFiles(c: Container): seq<string> { if |c.content| < 2 then [] else c.content[2..] }

  lemma FileNamesApart()
    ensures "rabbitmq-tls" != "default_user.conf" && "rabbitmq-tls" != "rabbitmq-env.conf"
    ensures "rabbitmq-tls" != "advanced.config" && "rabbitmq-tls" != "erl_inetrc"
    ensures "default_user.conf" != "rabbitmq-env.conf" && "default_user.conf" != "advanced.config"
    ensures "default_user.conf" != "erl_inetrc" && "rabbitmq-env.conf" != "advanced.config"
    ensures "rabbitmq-env.conf" != "erl_inetrc" && "advanced.config" != "erl_inetrc"
  {
    assert |"rabbitmq-tls"| == 12 && |"default_user.conf"| == 17 && |"rabbitmq-env.conf"| == 17;
    assert |"advanced.config"| == 15 && |"erl_inetrc"| == 10;
    assert "default_user.conf"[0] == 'd' && "rabbitmq-env.conf"[0] == 'r';
  }

  /**
    The broker runs the cluster's image, is probed on a port that is open, and mounts its certificates,
    the file of the default user unless vault brings it, and exactly the configuration files that the
    server ConfigMap in place has.
  */
  lemma NodeMounts(rmq: Cluster, o: Object)
    requires Fixed(ServerConfBuilder(rmq), o)
    ensures o.ConfigMap?
    ensures var c := Containers(rmq)[0];
            && c.name == "rabbitmq" && |c.content| >= 2 && c.content[0] == rmq.spec.image
            && c.content[1] == (if rmq.spec.disableNonTLS then "amqps" else "amqp")
            && ("rabbitmq-tls" in MountedFiles(c) <==> rmq.spec.tlsSecret != "")
            && ("default_user.conf" in MountedFiles(c) <==>
                  !(rmq.spec.vault.Some? && rmq.spec.vault.value.defaultUserPath != ""))
            && ("rabbitmq-env.conf" in MountedFiles(c) <==> "rabbitmq-env.conf" in o.files)
            && ("advanced.config" in MountedFiles(c) <==> "advanced.config" in o.files)
            && ("erl_inetrc" in MountedFiles(c) <==> "erl_inetrc" in o.files)
  {
    Tables.NodesRead(rmq, o);
    MountsAre(rmq);
    hide Fixed, ServerConfBuilder, RabbitmqContainer, MountedFiles, UpdaterContainer;
  }

  lemma MountsAre(rmq: Cluster)
    ensures var c := RabbitmqContainer(rmq);
            && c.name == "rabbitmq" && |c.content| >= 2 && c.content[0] == rmq.spec.image
            && c.content[1] == (if rmq.spec.disableNonTLS then "amqps" else "amqp")
            && ("rabbitmq-tls" in MountedFiles(c) <==> rmq.spec.tlsSecret != "")
            && ("default_user.conf" in MountedFiles(c) <==> !rmq.VaultDefaultUserSecretEnabled())
            && ("rabbitmq-env.conf" in MountedFiles(c) <==> rmq.spec.envConfig != "")
            && ("advanced.config" in MountedFiles(c) <==> rmq.spec.advancedConfig != "")
            && ("erl_inetrc" in MountedFiles(c) <==> rmq.spec.erlangInetConfig != "")
  {
    FileNamesApart();
    ChosenIff("rabbitmq-tls", "default_user.conf", "rabbitmq-env.conf", "advanced.config", "erl_inetrc",
      rmq.SecretTLSEnabled(), !rmq.VaultDefaultUserSecretEnabled(), rmq.spec.envConfig != "",
      rmq.spec.advancedConfig != "", rmq.spec.erlangInetConfig != "");
    hide When;
    DropTwo([rmq.spec.image, if rmq.spec.disableNonTLS then "amqps" else "amqp"],
      When(rmq.SecretTLSEnabled(), ["rabbitmq-tls"]), When(!rmq.VaultDefaultUserSecretEnabled(), ["default_user.conf"]),
      When(rmq.spec.envConfig != "", ["rabbitmq-env.conf"]), When(rmq.spec.advancedConfig != "", ["advanced.config"]),
      When(rmq.spec.erlangInetConfig != "", ["erl_inetrc"]));
  }

  lemma DropTwo(p: seq<string>, a: seq<string>, b: seq<string>, c: seq<string>, d: seq<string>, e: seq<string>)
    requires |p| == 2
    ensures var all := p + a + b + c + d + e;
            |all| >= 2 && all[0] == p[0] && all[1] == p[1] && all[2..] == a + b + c + d + e
  {
    assert p + a + b + c + d + e == p + (a + b + c + d + e);
  }

  lemma ChosenIff(a: string, b: string, c: string, d: string, e: string,
      withA: bool, withB: bool, withC: bool, withD: bool, withE: bool)
    requires a != b && a != c && a != d && a != e && b != c && b != d && b != e && c != d && c != e && d != e
    ensures var chosen := When(withA, [a]) + When(withB, [b]) + When(withC, [c]) + When(withD, [d]) + When(withE, [e]);
            && (a in chosen <==> withA) && (b in chosen <==> withB) && (c in chosen <==> withC)
            && (d in chosen <==> withD) && (e in chosen <==> withE)
  {
    var x, y, z, u, v := When(withA, [a]), When(withB, [b]), When(withC, [c]), When(withD, [d]), When(withE, [e]);
    assert forall f :: f in x + y + z + u + v <==> f in x || f in y || f in z || f in u || f in v;
  }

  /** The updater runs beside the broker exactly when vault keeps the user and an updater image is given. */
  lemma UpdaterRuns(rmq: Cluster)
    ensures var cs := Containers(rmq);
            var runs := rmq.spec.vault.Some? && rmq.spec.vault.value.defaultUserPath != ""
              && rmq.spec.vault.value.updaterImage.Some? && rmq.spec.vault.value.updaterImage.value != "";
            && |cs| == 1 + Bit(runs)
            && (runs ==>
                  && cs[1].name == "default-user-credential-updater" && |cs[1].content| >= 2
                  && cs[1].content[0] == rmq.spec.vault.value.updaterImage.value
                  && (cs[1].content[1] == "https" <==>
                    rmq.spec.tlsSecret != "" || rmq.spec.vault.value.pkiIssuerPath != "")
                  && ("rabbitmq-tls" in MountedFiles(cs[1]) <==> rmq.spec.tlsSecret != "")
                  && cs[1].memoryLimit == 134217728 && cs[1].memoryRequest == 524288)
    ensures ("default_user.conf" in SetupContainer(rmq).content[1..] <==>
              !(rmq.spec.vault.Some? && rmq.spec.vault.value.defaultUserPath != ""))
  {
    hide RabbitmqContainer;
    assert |"https"| == 5 && |"http"| == 4;
  }

  // ------------------------------------------------- accounts, selectors, storage

  /** Nodes run under the operator's service account, and the binding gives that account the operator's role. */
  lemma AccountsResolve(rmq: Cluster)
    ensures exists account, role ::
              && Written(rmq, ServiceAccount, KindServiceAccount, account)
              && Written(rmq, PeerDiscoveryRole, KindRole, role)
              && PodContent(rmq) == rmq.spec.podSettings
                + (if rmq.spec.pullSecrets.Some? then rmq.spec.pullSecrets.value else []) + [account]
              && BindingSubjects(rmq) == [role, account]
    ensures RoleRules(rmq) == ["endpoints: get", "events: create"]
  {
    AllWritten(rmq);
    hide Written, ChildResourceName;
    var account, role := ChildResourceName(rmq.name, "server"), ChildResourceName(rmq.name, "peer-discovery");
    assert Written(rmq, ServiceAccount, KindServiceAccount, account);
    assert Written(rmq, PeerDiscoveryRole, KindRole, role);
  }

  /**
    A set selects the pods of its own template and so do both services; its pods find one another through
    the headless service; a new set asks for its storage in its one claim template, and without storage
    for none.
  */
  lemma SelectorsMatch(rmq: Cluster, pod: PodTemplate, o: Object)
    requires o.Service?
    ensures var spec := BuildSet(rmq).spec;
            && Finalizer.Carries(Template(rmq, pod).labels, spec.selector) && spec.selector != map[]
            && Finalizer.Carries(Template(rmq, pod).labels, HeadlessBody(rmq, o).service.selector)
            && Finalizer.Carries(Template(rmq, pod).labels, ClientBody(rmq, o).service.selector)
            && HeadlessBody(rmq, o).service.selector != map[] && ClientBody(rmq, o).service.selector != map[]
            && Written(rmq, HeadlessService, KindService, spec.serviceName)
            && spec.claims == (if rmq.spec.storage == 0 then []
                               else [Claim("persistence", rmq.spec.storage, "ReadWriteOnce, owner " + rmq.uid)])
  {
    AllWritten(rmq);
    hide Written, ChildResourceName, Volumes, Containers, SetupContainer, VaultAnnotations, PodContent, Constraints;
    hide ClientPorts, ServiceType, Merge.Lawful;
    var labels, selector := Label(rmq.name), LabelSelector(rmq.name);
    assert NAME_LABEL in selector;
    assert forall e :: e in selector.Items ==> e in labels.Items;
    if rmq.spec.storage != 0 {
      var claim := Claim(PVC_NAME, rmq.spec.storage, "ReadWriteOnce, owner " + rmq.uid);
      assert [claim][..0] == [];
      assert Merge.Merged(Merge.CLAIMS, [], []) == [];
      assert Merge.Merged(Merge.CLAIMS, [], [claim]) == [claim];
    }
  }

  // ------------------------------------------------------------------ vault

  /** The name under which the headless service serves pod 0 of node i. */
  ghost predicate HostOf(rmq: Cluster, host: string, i: nat) {
    exists d, service ::
      && Decimal(d) && Value(d) == i && Written(rmq, HeadlessService, KindService, service)
      && host == rmq.name + "-server-" + d + "-0" + "." + service + "." + rmq.namespace
  }

  ghost predicate HostsOf(rmq: Cluster, hosts: seq<string>) {
    forall i :: 0 <= i < |hosts| ==> HostOf(rmq, hosts[i], i)
  }

  lemma HostIs(rmq: Cluster, i: nat) returns (host: string)
    ensures host == PodName(rmq.name, SET_SUFFIX, i) + "." + HeadlessName(rmq) + "." + rmq.namespace
    ensures HostOf(rmq, host, i)
  {
    AllWritten(rmq);
    ItoaIff(i, Itoa(i));
    NodeNamesRead(rmq.name, i, Itoa(i));
    hide Written, ChildResourceName, PodName, Itoa, Decimal, Value;
    host := PodName(rmq.name, SET_SUFFIX, i) + "." + HeadlessName(rmq) + "." + rmq.namespace;
    var service := HeadlessName(rmq);
    assert host == rmq.name + "-server-" + Itoa(i) + "-0" + "." + service + "." + rmq.namespace;
  }

  lemma {:induction false} JoinAppend(parts: seq<string>, last: string, sep: string)
    requires parts != []
    ensures Join(parts + [last], sep) == Join(parts, sep) + sep + last
  {
    var all := parts + [last];
    assert all[1..] == parts[1..] + [last];
    if |parts| == 1 {
      assert Join([last], sep) == last;
    } else {
      JoinAppend(parts[1..], last, sep);
    }
  }

  /** The alternative names of a certificate are the host names of all nodes, in order. */
  lemma {:induction false} PodHostsAre(rmq: Cluster, n: nat) returns (hosts: seq<string>)
    ensures |hosts| == n && HostsOf(rmq, hosts) && PodHostNames(rmq, n) == Join(hosts, ",")
  {
    hide HostOf, PodName, HeadlessName;
    hosts := [];
    if n > 0 {
      var front := PodHostsAre(rmq, n - 1);
      var host := HostIs(rmq, n - 1);
      hosts := front + [host];
      if n > 1 {
        JoinAppend(front, host, ",");
      }
    }
  }

  /**
    Vault is asked for the role, the user at its path and the certificate for the host names of all
    nodes, whatever of these the cluster names, and the user's own annotations win.
  */
  lemma VaultIsAsked(rmq: Cluster) returns (hosts: seq<string>)
    ensures |hosts| == rmq.spec.replicas && HostsOf(rmq, hosts)
    ensures rmq.spec.vault.None? ==> VaultAnnotations(rmq) == map[]
    ensures rmq.spec.vault.Some? ==>
              var vault := rmq.spec.vault.value;
              VaultAnnotations(rmq) ==
                map[VAULT + "agent-inject" := "true", VAULT + "agent-init-first" := "true",
                    VAULT + "role" := vault.role]
                + Tables.Given(vault.defaultUserPath != "",
                    map[VAULT + "agent-inject-secret-11-default_user.conf" := vault.defaultUserPath])
                + Tables.Given(vault.pkiIssuerPath != "",
                    map[VAULT + "agent-inject-secret-tls.crt" := vault.pkiIssuerPath,
                        VAULT + "agent-inject-template-tls.crt" := Join(hosts, ",")])
                + vault.annotations
  {
    hosts := PodHostsAre(rmq, rmq.spec.replicas);
    hide HostsOf, PodHostNames, Join, VAULT;
  }

  // ------------------------------------------------------------ spread and status

  /** The default spread over zones is left to the user exactly when the annotation says true between blanks. */
  lemma SpreadOff(rmq: Cluster)
    ensures DefaultConstraintsDisabled(rmq) <==>
              && "rabbitmq.com/disable-default-topology-spread-constraints" in rmq.annotations
              && Padded(rmq.annotations["rabbitmq.com/disable-default-topology-spread-constraints"], "true")
  {
    var k := "rabbitmq.com/disable-default-topology-spread-constraints";
    assert NO_SPREAD == k;
    hide NO_SPREAD;
    TrimSpaceIff(Lookup(rmq.annotations, k), "true");
    hide Padded;
    assert TrimSpace("") == "";
    assert |"true"| == 4;
  }

  /** No builder writes the secret of the default user when the user names one or vault has it. */
  lemma NoUserSecret(rmq: Cluster, role: Role)
    requires Clean(rmq) && !HasUserSecret(rmq)
    ensures !Written(rmq, role, KindSecret, ChildResourceName(rmq.name, "default-user"))
  {
    hide Clean, CookieBuilder, UserBuilder, ChildResourceName, ResourceBuilders;
    SuffixesApart(rmq.name);
    FilesAre(rmq);
    forall b | b in ResourceBuilders(rmq) && Is(b, role, KindSecret, ChildResourceName(rmq.name, "default-user"))
      ensures false
    {
      BuilderKinds(rmq, b);
      UserSecretOut(rmq, b);
    }
  }

  lemma UserSecretOut(rmq: Cluster, b: Builder)
    requires b in ResourceBuilders(rmq) && !HasUserSecret(rmq)
    ensures b.role != DefaultUserSecret
  {
    hide PlainUpdate, ChildResourceName, StatefulsetName, HasUserSecret;
  }

  /**
    What the status publishes: the client service that the operator writes, and, unless vault has the
    user, a secret. The binding is the secret that exists; the reference beside the service is the
    operator's own even when the user names another, and then nothing writes that one.
  */
  lemma StatusResolves(rmq: Cluster)
    requires Clean(rmq)
    ensures var status, external := Stages.Published(rmq), rmq.spec.externalSecret;
            var vault := rmq.spec.vault.Some? && rmq.spec.vault.value.defaultUserPath != "";
            && status.replicas >= rmq.spec.replicas && status.replicas >= rmq.status.replicas
            && status.replicas in {rmq.spec.replicas, rmq.status.replicas}
            && status.conditions == rmq.status.conditions && status.observedGeneration == rmq.status.observedGeneration
            && status.defaultUser.Some?
            && Written(rmq, ClientService, KindService, status.defaultUser.value.serviceName)
            && (vault <==> status.defaultUser.value.secretName.None?)
            && (vault ==> status.binding == rmq.status.binding)
            && (!vault && external != "" ==> status.binding == Some(external))
            && (!vault && external == "" ==> status.binding == status.defaultUser.value.secretName)
            && (!vault ==>
                  (external == "" <==>
                    exists role :: Written(rmq, role, KindSecret, status.defaultUser.value.secretName.value)))
  {
    AllWritten(rmq);
    hide Written, ChildResourceName, Clean;
    if !HasUserSecret(rmq) {
      forall role ensures !Written(rmq, role, KindSecret, ChildResourceName(rmq.name, "default-user")) {
        NoUserSecret(rmq, role);
      }
    }
  }
}
