/** What a node reads from the files of the server ConfigMap, as tables of settings. */
module Tables {
  import opened Basics
  import opened Objects
  import opened Store
  import opened Names
  import opened ServerConfig
  import opened Builders
  import Desired
  import Merge

  /** Reading a file: each key has the value it is given last. */
  function Table(file: seq<Entry>): StrMap {
    if file == [] then map[]
    else
      var last := file[|file| - 1];
      Table(file[..|file| - 1])[last.key := last.value]
  }

  lemma {:induction false} TableOfTwo(a: seq<Entry>, b: seq<Entry>)
    ensures Table(a + b) == Table(a) + Table(b)
  {
    if b == [] {
      assert a + b == a;
    } else {
      TableOfTwo(a, b[..|b| - 1]);
      assert (a + b)[..|a + b| - 1] == a + b[..|b| - 1];
    }
  }

  lemma {:induction false} TableOfUpsert(file: seq<Entry>, e: Entry)
    ensures Table(Merge.Upsert(Merge.ENTRIES, file, e)) == Table(file)[e.key := e.value]
  {
    var m := Merge.ENTRIES;
    var i := Merge.Last(m, file, e.key);
    var r := Merge.Upsert(m, file, e);
    if i < 0 {
      assert r[..|r| - 1] == file;
    } else {
      var n := |file| - 1;
      if i < n {
        TableOfUpsert(file[..n], e);
        assert r[..n] == Merge.Upsert(m, file[..n], e);
      } else {
        assert r[..n] == file[..n];
      }
    }
  }

  /** Loading entries into a file overrides what it says of their keys and nothing else. */
  lemma {:induction false} TableOfLoad(file: seq<Entry>, entries: seq<Entry>)
    ensures Table(Load(file, entries)) == Table(file) + Table(entries)
  {
    hide Merge.Upsert;
    if entries != [] {
      var n := |entries| - 1;
      TableOfLoad(file, entries[..n]);
      TableOfUpsert(Load(file, entries[..n]), entries[n]);
    }
  }

  lemma EmptyTable()
    ensures Table([]) == map[]
  {
  }

  lemma TableOfOne(a: Entry)
    ensures Table([a]) == map[a.key := a.value]
  {
    assert Table([]) == map[];
  }

  lemma TableOfPair(a: Entry, b: Entry)
    ensures Table([a, b]) == map[a.key := a.value, b.key := b.value]
  {
    TableOfOne(a);
    assert [a, b][..1] == [a];
  }

  lemma TableOfThree(a: Entry, b: Entry, c: Entry)
    ensures Table([a, b, c]) == map[a.key := a.value, b.key := b.value, c.key := c.value]
  {
    TableOfPair(a, b);
    assert [a, b, c][..2] == [a, b];
  }

  // ---------------------------------------------------------- the operator's file

  const OPERATOR_DEFAULTS: StrMap :=
    map["log.file" := "/var/log/rabbitmq/rabbitmq.log", "queue_master_locator" := "min-masters",
        "disk_free_limit.absolute" := "2GB"]
    + map["cluster_partition_handling" := "pause_minority",
          "cluster_formation.peer_discovery_backend" := "rabbit_peer_discovery_k8s",
          "cluster_formation.k8s.host" := "kubernetes.default"]
    + map["cluster_formation.k8s.address_type" := "hostname"]

  /**
    The operator's file: fixed settings, the size of the cluster, its name, and safe mechanisms
    unless the user chose.
  */
  function OperatorTable(name: string, replicas: nat, chosen: bool): StrMap {
    OPERATOR_DEFAULTS
    + map["cluster_formation.target_cluster_size_hint" := Itoa(replicas), "cluster_name" := name]
    + (if chosen then map[] else map["auth_mechanisms.1" := "PLAIN", "auth_mechanisms.2" := "AMQPLAIN"])
  }

  /** The user's configuration names authentication mechanisms. */
  ghost predicate ChoosesMechanisms(additional: seq<Entry>) {
    exists e :: e in additional && "auth_mechanisms" <= e.key
  }

  lemma ChoosesIff(additional: seq<Entry>)
    ensures AuthMechanismsConfigured(additional) <==> ChoosesMechanisms(additional)
  {
    if ChoosesMechanisms(additional) {
      var e :| e in additional && "auth_mechanisms" <= e.key;
      var i :| 0 <= i < |additional| && additional[i] == e;
      assert HasPrefix(additional[i].key, "auth_mechanisms");
    }
  }

  lemma DefaultsRead()
    ensures Table(DEFAULT_CONF) == OPERATOR_DEFAULTS
  {
    var c := DEFAULT_CONF;
    var x, y, z := [c[0], c[1], c[2]], [c[3], c[4], c[5]], [c[6]];
    assert c == x + y + z;
    TableOfThree(c[0], c[1], c[2]);
    TableOfThree(c[3], c[4], c[5]);
    TableOfOne(c[6]);
    TableOfTwo(x, y);
    TableOfTwo(x + y, z);
    hide Table;
  }

  lemma SettingsRead(rmq: Cluster, additional: seq<Entry>)
    ensures Table(OperatorSettings(rmq, additional)) ==
              map["cluster_formation.target_cluster_size_hint" := Itoa(rmq.spec.replicas), "cluster_name" := rmq.name]
              + (if AuthMechanismsConfigured(additional) then map[]
                 else map["auth_mechanisms.1" := "PLAIN", "auth_mechanisms.2" := "AMQPLAIN"])
  {
    hide AuthMechanismsConfigured, Itoa;
    var a, b := Entry(SIZE_HINT, Itoa(rmq.spec.replicas)), Entry("cluster_name", rmq.name);
    var c, d := Entry("auth_mechanisms.1", "PLAIN"), Entry("auth_mechanisms.2", "AMQPLAIN");
    TableOfPair(a, b);
    TableOfPair(c, d);
    TableOfOne(a);
    TableOfTwo([a, b], if AuthMechanismsConfigured(additional) then [] else [c, d]);
  }

  lemma OperatorFileReads(rmq: Cluster, additional: seq<Entry>)
    ensures Table(OperatorFile(rmq, additional)) ==
              OperatorTable(rmq.name, rmq.spec.replicas, ChoosesMechanisms(additional))
  {
    hide Table, ChoosesMechanisms, AuthMechanismsConfigured, DEFAULT_CONF, OPERATOR_DEFAULTS, OperatorSettings, Load;
    hide SIZE_HINT, Itoa;
    ChoosesIff(additional);
    DefaultsRead();
    SettingsRead(rmq, additional);
    EmptyTable();
    TableOfLoad([], DEFAULT_CONF);
    TableOfLoad(Load([], DEFAULT_CONF), OperatorSettings(rmq, additional));
  }

  // -------------------------------------------------------------- the user's file

  function Given(condition: bool, settings: StrMap): StrMap { if condition then settings else map[] }

  /** A plugin's listener: its TLS port, and no plain one when plain listeners are off. */
  function Listener(enabled: bool, only: bool, plain: string, secure: string, port: string): StrMap {
    Given(enabled && only, map[plain := "none"]) + Given(enabled, map[secure := port])
  }

  /** A web plugin's listener, which needs the certificates as well. */
  function WebListener(enabled: bool, only: bool, prefix: string, port: string): StrMap {
    Given(enabled,
      map[prefix + ".ssl.cacertfile" := "/etc/rabbitmq-tls/ca.crt",
          prefix + ".ssl.certfile" := "/etc/rabbitmq-tls/tls.crt",
          prefix + ".ssl.keyfile" := "/etc/rabbitmq-tls/tls.key"])
    + Given(enabled && only, map[prefix + ".tcp.listener" := "none"])
    + Given(enabled, map[prefix + ".ssl.port" := port])
  }

  const CERTIFICATES: StrMap :=
    map["ssl_options.certfile" := "/etc/rabbitmq-tls/tls.crt", "ssl_options.keyfile" := "/etc/rabbitmq-tls/tls.key",
        "listeners.ssl.default" := "5671"]
    + map["management.ssl.certfile" := "/etc/rabbitmq-tls/tls.crt",
          "management.ssl.keyfile" := "/etc/rabbitmq-tls/tls.key", "management.ssl.port" := "15671"]
    + map["prometheus.ssl.certfile" := "/etc/rabbitmq-tls/tls.crt",
          "prometheus.ssl.keyfile" := "/etc/rabbitmq-tls/tls.key", "prometheus.ssl.port" := "15691"]

  /** With TLS: secure ports and, unless they are off, the plain ports of the web interfaces. */
  function SecureTable(only: bool, plugins: seq<string>): StrMap {
    Given(only, map["listeners.tcp" := "none"])
    + Given(!only, map["management.tcp.port" := "15672", "prometheus.tcp.port" := "15692"])
    + Listener("rabbitmq_mqtt" in plugins, only, "mqtt.listeners.tcp", "mqtt.listeners.ssl.default", "8883")
    + Listener("rabbitmq_stomp" in plugins, only, "stomp.listeners.tcp", "stomp.listeners.ssl.1", "61614")
    + Listener("rabbitmq_stream" in plugins, only, "stream.listeners.tcp", "stream.listeners.ssl.default", "5551")
  }

  /** With a CA: clients are verified, and the web plugins listen. */
  function VerifiedTable(only: bool, plugins: seq<string>): StrMap {
    map["ssl_options.cacertfile" := "/etc/rabbitmq-tls/ca.crt", "ssl_options.verify" := "verify_peer"]
    + map["management.ssl.cacertfile" := "/etc/rabbitmq-tls/ca.crt",
          "prometheus.ssl.cacertfile" := "/etc/rabbitmq-tls/ca.crt"]
    + WebListener("rabbitmq_web_mqtt" in plugins, only, "web_mqtt", "15676")
    + WebListener("rabbitmq_web_stomp" in plugins, only, "web_stomp", "15673")
  }

  /** What stays for the broker: all but a fifth of the memory, and all but 2 GiB of much memory. */
  function Usable(limit: nat): nat { if limit / 5 <= 2147483648 then limit - limit / 5 else limit - 2147483648 }

  function MemoryTable(limit: nat): StrMap {
    Given(limit != 0, map["total_memory_available_override_value" := Itoa(Usable(limit))])
  }

  /**
    The user's file, by the fields of the cluster: what TLS, a CA and a memory limit ask for, and
    the user's own last.
  */
  function UserTable(rmq: Cluster, additional: seq<Entry>): StrMap {
    var pki := rmq.spec.vault.Some? && rmq.spec.vault.value.pkiIssuerPath != "";
    var tls, ca := rmq.spec.tlsSecret != "" || pki, (rmq.spec.tlsSecret != "" && rmq.spec.caSecret != "") || pki;
    Given(tls, SecureTable(rmq.spec.disableNonTLS, rmq.spec.plugins))
    + Given(ca, VerifiedTable(rmq.spec.disableNonTLS, rmq.spec.plugins))
    + MemoryTable(rmq.spec.memoryLimit) + Given(tls, CERTIFICATES) + Table(additional)
  }

  lemma TableOfIf(condition: bool, entries: seq<Entry>)
    ensures Table(If(condition, entries)) == Given(condition, Table(entries))
  {
    EmptyTable();
    hide Table;
  }

  lemma CertificatesRead()
    ensures Table(TLS_CONF) == CERTIFICATES
  {
    var c := TLS_CONF;
    var x, y, z := [c[0], c[1], c[2]], [c[3], c[4], c[5]], [c[6], c[7], c[8]];
    assert c == x + y + z;
    TableOfThree(c[0], c[1], c[2]);
    TableOfThree(c[3], c[4], c[5]);
    TableOfThree(c[6], c[7], c[8]);
    TableOfTwo(x, y);
    TableOfTwo(x + y, z);
    hide Table;
  }

  lemma ListenerReads(enabled: bool, only: bool, plain: string, secure: string, port: string)
    ensures Table(If(enabled, If(only, [Entry(plain, "none")]) + [Entry(secure, port)])) ==
              Listener(enabled, only, plain, secure, port)
  {
    var a, b := [Entry(plain, "none")], [Entry(secure, port)];
    TableOfOne(a[0]);
    TableOfOne(b[0]);
    hide Table;
    TableOfIf(only, a);
    TableOfTwo(If(only, a), b);
    TableOfIf(enabled, If(only, a) + b);
  }

  lemma SecureRead(rmq: Cluster)
    ensures Table(TLSSettings(rmq)) == SecureTable(rmq.spec.disableNonTLS, rmq.spec.plugins)
  {
    var none := rmq.spec.disableNonTLS;
    var a, b := [Entry("listeners.tcp", "none")], [Entry("management.tcp.port", "15672"),
      Entry("prometheus.tcp.port", "15692")];
    TableOfOne(a[0]);
    TableOfPair(b[0], b[1]);
    TableOfIf(none, a);
    TableOfIf(!none, b);
    hide Table;
    var mqtt := If(rmq.PluginEnabled("rabbitmq_mqtt"),
         If(none, [Entry("mqtt.listeners.tcp", "none")]) + [Entry("mqtt.listeners.ssl.default", "8883")]);
    var stomp := If(rmq.PluginEnabled("rabbitmq_stomp"),
         If(none, [Entry("stomp.listeners.tcp", "none")]) + [Entry("stomp.listeners.ssl.1", "61614")]);
    var stream := If(rmq.PluginEnabled("rabbitmq_stream"),
         If(none, [Entry("stream.listeners.tcp", "none")]) + [Entry("stream.listeners.ssl.default", "5551")]);
    ListenerReads(rmq.PluginEnabled("rabbitmq_mqtt"), none, "mqtt.listeners.tcp", "mqtt.listeners.ssl.default", "8883");
    ListenerReads(rmq.PluginEnabled("rabbitmq_stomp"), none, "stomp.listeners.tcp", "stomp.listeners.ssl.1", "61614");
    ListenerReads(rmq.PluginEnabled("rabbitmq_stream"), none, "stream.listeners.tcp", "stream.listeners.ssl.default",
      "5551");
    TableOfTwo(If(none, a), If(!none, b));
    TableOfTwo(If(none, a) + If(!none, b), mqtt);
    TableOfTwo(If(none, a) + If(!none, b) + mqtt, stomp);
    TableOfTwo(If(none, a) + If(!none, b) + mqtt + stomp, stream);
  }

  lemma WebReads(rmq: Cluster, plugin: string, prefix: string, port: string)
    ensures Table(WebSettings(rmq, plugin, prefix, port)) ==
              WebListener(plugin in rmq.spec.plugins, rmq.spec.disableNonTLS, prefix, port)
  {
    var none := rmq.spec.disableNonTLS;
    var a, b, c := [Entry(prefix + ".ssl.cacertfile", CA_CERT), Entry(prefix + ".ssl.certfile", TLS_CERT),
         Entry(prefix + ".ssl.keyfile", TLS_KEY)], [Entry(prefix + ".tcp.listener", "none")],
      [Entry(prefix + ".ssl.port", port)];
    TableOfThree(a[0], a[1], a[2]);
    TableOfOne(b[0]);
    TableOfOne(c[0]);
    hide Table;
    TableOfIf(none, b);
    TableOfTwo(a, If(none, b));
    TableOfTwo(a + If(none, b), c);
    TableOfIf(rmq.PluginEnabled(plugin), a + If(none, b) + c);
    hide WebSettings;
  }

  lemma VerifiedRead(rmq: Cluster)
    ensures Table(MutualTLSSettings(rmq)) == VerifiedTable(rmq.spec.disableNonTLS, rmq.spec.plugins)
  {
    var a := [Entry("ssl_options.cacertfile", CA_CERT), Entry("ssl_options.verify", "verify_peer")];
    var b := [Entry("management.ssl.cacertfile", CA_CERT), Entry("prometheus.ssl.cacertfile", CA_CERT)];
    TableOfPair(a[0], a[1]);
    TableOfPair(b[0], b[1]);
    hide Table, WebSettings, WebListener;
    TableOfTwo(a, b);
    var mqtt, stomp := WebSettings(rmq, "rabbitmq_web_mqtt", "web_mqtt", "15676"),
      WebSettings(rmq, "rabbitmq_web_stomp", "web_stomp", "15673");
    WebReads(rmq, "rabbitmq_web_mqtt", "web_mqtt", "15676");
    WebReads(rmq, "rabbitmq_web_stomp", "web_stomp", "15673");
    TableOfTwo(a + b, mqtt);
    TableOfTwo(a + b + mqtt, stomp);
    assert MutualTLSSettings(rmq) == a + b + mqtt + stomp;
  }

  lemma MemoryRead(limit: nat)
    ensures Table(If(limit > 0, [Entry("total_memory_available_override_value", Itoa(RemoveHeadroom(limit)))])) ==
              MemoryTable(limit)
  {
    hide Itoa;
    var e := Entry("total_memory_available_override_value", Itoa(RemoveHeadroom(limit)));
    TableOfOne(e);
    hide Table;
    TableOfIf(limit > 0, [e]);
  }

  lemma LastWins(a: StrMap, b: StrMap)
    ensures a + b + a == b + a
  {
  }

  /** Loading settings between two loads of the same entries, in terms of tables. */
  lemma ReloadReads(twice: seq<Entry>, settings: seq<Entry>, additional: seq<Entry>)
    ensures Table(Load(Load(Load(Load([], twice), settings), twice), additional)) ==
              Table(settings) + Table(twice) + Table(additional)
  {
    hide Table, Load;
    var a := Load([], twice);
    var b := Load(a, settings);
    EmptyTable();
    TableOfLoad([], twice);
    assert Table(a) == Table(twice) by {
      assert map[] + Table(twice) == Table(twice);
    }
    TableOfLoad(a, settings);
    TableOfLoad(b, twice);
    TableOfLoad(Load(b, twice), additional);
    LastWins(Table(twice), Table(settings));
  }

  lemma UserFileReads(rmq: Cluster, additional: seq<Entry>)
    ensures Table(UserFile(rmq, additional)) == UserTable(rmq, additional)
  {
    hide Table, TLS_CONF, CERTIFICATES, TLSSettings, MutualTLSSettings, SecureTable, VerifiedTable, MemoryTable;
    hide RemoveHeadroom, Itoa, Load, If, Given;
    var tls, secure, mutual := If(rmq.TLSEnabled(), TLS_CONF), If(rmq.TLSEnabled(), TLSSettings(rmq)),
      If(rmq.MutualTLSEnabled(), MutualTLSSettings(rmq));
    var memory := If(rmq.spec.memoryLimit > 0,
              [Entry("total_memory_available_override_value", Itoa(RemoveHeadroom(rmq.spec.memoryLimit)))]);
    CertificatesRead();
    SecureRead(rmq);
    VerifiedRead(rmq);
    MemoryRead(rmq.spec.memoryLimit);
    TableOfIf(rmq.TLSEnabled(), TLS_CONF);
    TableOfIf(rmq.TLSEnabled(), TLSSettings(rmq));
    TableOfIf(rmq.MutualTLSEnabled(), MutualTLSSettings(rmq));
    TableOfTwo(secure, mutual);
    TableOfTwo(secure + mutual, memory);
    ReloadReads(tls, secure + mutual + memory, additional);
  }

  // ------------------------------------------------------------ the stored files

  /**
    The server ConfigMap is in place: the nodes read the operator's settings and then the user's,
    which win, and find exactly the other configuration files that the cluster gives them.
  */
  lemma NodesRead(rmq: Cluster, o: Object)
    requires Fixed(ServerConfBuilder(rmq), o)
    ensures o.ConfigMap? && rmq.spec.additionalConfig.Some?
    ensures "operatorDefaults.conf" in o.files && o.files["operatorDefaults.conf"].Ini?
    ensures "userDefinedConfiguration.conf" in o.files && o.files["userDefinedConfiguration.conf"].Ini?
    ensures var additional := rmq.spec.additionalConfig.value;
            var read := Table(o.files["operatorDefaults.conf"].entries)
              + Table(o.files["userDefinedConfiguration.conf"].entries);
            && read == OperatorTable(rmq.name, rmq.spec.replicas, ChoosesMechanisms(additional))
              + UserTable(rmq, additional)
            && forall k :: k in Table(additional) ==> k in read && read[k] == Table(additional)[k]
    ensures (rmq.spec.advancedConfig != "" <==> "advanced.config" in o.files)
    ensures (rmq.spec.envConfig != "" <==> "rabbitmq-env.conf" in o.files)
    ensures (rmq.spec.erlangInetConfig != "" <==> "erl_inetrc" in o.files)
  {
    hide Table, OperatorFile, UserFile, OperatorTable, UserTable, ChoosesMechanisms, Fixed, ServerConfBuilder;
    hide Desired.MetaInPlace;
    Desired.ServerConfFixedIff(rmq, o);
    var additional := rmq.spec.additionalConfig.value;
    OperatorFileReads(rmq, additional);
    UserFileReads(rmq, additional);
    UserWins(rmq, additional);
  }

  lemma UserWins(rmq: Cluster, additional: seq<Entry>)
    ensures forall k :: k in Table(additional) ==>
              k in UserTable(rmq, additional) && UserTable(rmq, additional)[k] == Table(additional)[k]
  {
    hide Table, SecureTable, VerifiedTable, MemoryTable, CERTIFICATES, Given;
  }
}
