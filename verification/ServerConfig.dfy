/** The server ConfigMap and its restart decision (internal/resource/configmap.go). */
module ServerConfig {
  import opened Basics
  import opened Objects
  import opened Store
  import opened Names
  import opened Metadata
  import Merge

  const DEFAULTS_FILE := "operatorDefaults.conf"
  const USER_FILE := "userDefinedConfiguration.conf"
  const ADVANCED_FILE := "advanced.config"
  const ENV_FILE := "rabbitmq-env.conf"
  const INET_FILE := "erl_inetrc"
  const SIZE_HINT := "cluster_formation.target_cluster_size_hint"
  const CA_CERT := "/etc/rabbitmq-tls/ca.crt"
  const TLS_CERT := "/etc/rabbitmq-tls/tls.crt"
  const TLS_KEY := "/etc/rabbitmq-tls/tls.key"

  const DEFAULT_CONF: seq<Entry> := [
    Entry("log.file", "/var/log/rabbitmq/rabbitmq.log"),
    Entry("queue_master_locator", "min-masters"),
    Entry("disk_free_limit.absolute", "2GB"),
    Entry("cluster_partition_handling", "pause_minority"),
    Entry("cluster_formation.peer_discovery_backend", "rabbit_peer_discovery_k8s"),
    Entry("cluster_formation.k8s.host", "kubernetes.default"),
    Entry("cluster_formation.k8s.address_type", "hostname")]

  const TLS_CONF: seq<Entry> := [
    Entry("ssl_options.certfile", TLS_CERT),
    Entry("ssl_options.keyfile", TLS_KEY),
    Entry("listeners.ssl.default", "5671"),
    Entry("management.ssl.certfile", TLS_CERT),
    Entry("management.ssl.keyfile", TLS_KEY),
    Entry("management.ssl.port", "15671"),
    Entry("prometheus.ssl.certfile", TLS_CERT),
    Entry("prometheus.ssl.keyfile", TLS_KEY),
    Entry("prometheus.ssl.port", "15691")]

  // -------------------------------------------------------- the two ini files

  predicate AuthMechanismsConfigured(additional: seq<Entry>) {
    exists i :: 0 <= i < |additional| && HasPrefix(additional[i].key, "auth_mechanisms")
  }

  /** NewKey for each entry in turn, or loading a file: a repeated key keeps its place and takes the new value. */
  function Load(file: seq<Entry>, entries: seq<Entry>): seq<Entry> {
    Merge.Merged(Merge.ENTRIES, file, entries)
  }

  function OperatorSettings(rmq: Cluster, additional: seq<Entry>): seq<Entry> {
    [Entry(SIZE_HINT, Itoa(rmq.spec.replicas)), Entry("cluster_name", rmq.name)]
    + (if AuthMechanismsConfigured(additional) then []
       else [Entry("auth_mechanisms.1", "PLAIN"), Entry("auth_mechanisms.2", "AMQPLAIN")])
  }

  function OperatorFile(rmq: Cluster, additional: seq<Entry>): seq<Entry> {
    Load(Load([], DEFAULT_CONF), OperatorSettings(rmq, additional))
  }

  function If(condition: bool, entries: seq<Entry>): seq<Entry> {
    if condition then entries else []
  }

  function TLSSettings(rmq: Cluster): seq<Entry> {
    var none := rmq.spec.disableNonTLS;
    If(none, [Entry("listeners.tcp", "none")])
    + If(!none, [Entry("management.tcp.port", "15672"), Entry("prometheus.tcp.port", "15692")])
    + If(rmq.PluginEnabled("rabbitmq_mqtt"),
         If(none, [Entry("mqtt.listeners.tcp", "none")]) + [Entry("mqtt.listeners.ssl.default", "8883")])
    + If(rmq.PluginEnabled("rabbitmq_stomp"),
         If(none, [Entry("stomp.listeners.tcp", "none")]) + [Entry("stomp.listeners.ssl.1", "61614")])
    + If(rmq.PluginEnabled("rabbitmq_stream"),
         If(none, [Entry("stream.listeners.tcp", "none")]) + [Entry("stream.listeners.ssl.default", "5551")])
  }

  function WebSettings(rmq: Cluster, plugin: string, prefix: string, port: string): seq<Entry> {
    If(rmq.PluginEnabled(plugin),
       [Entry(prefix + ".ssl.cacertfile", CA_CERT), Entry(prefix + ".ssl.certfile", TLS_CERT),
         Entry(prefix + ".ssl.keyfile", TLS_KEY)]
       + If(rmq.spec.disableNonTLS, [Entry(prefix + ".tcp.listener", "none")])
       + [Entry(prefix + ".ssl.port", port)])
  }

  function MutualTLSSettings(rmq: Cluster): seq<Entry> {
    [ Entry("ssl_options.cacertfile", CA_CERT), Entry("ssl_options.verify", "verify_peer"),
      Entry("management.ssl.cacertfile", CA_CERT), Entry("prometheus.ssl.cacertfile", CA_CERT) ]
    + WebSettings(rmq, "rabbitmq_web_mqtt", "web_mqtt", "15676")
    + WebSettings(rmq, "rabbitmq_web_stomp", "web_stomp", "15673")
  }

  /** removeHeadroom: 20 percent of the memory, but at most 2 GiB, stays free. */
  function RemoveHeadroom(limit: nat): (r: nat)
    ensures r <= limit && (limit - r == limit / 5 || limit - r == 2 * 1073741824)
    ensures limit - r <= 2 * 1073741824 && limit - r <= limit / 5
  {
    if limit / 5 > 2 * 1073741824 then limit - 2 * 1073741824 else limit - limit / 5
  }

  /** The operator's own entries of the user file, before additionalConfig is appended. */
  function UserDefaults(rmq: Cluster): seq<Entry> {
    var tls := If(rmq.TLSEnabled(), TLS_CONF);
    Load(Load([], tls),
         If(rmq.TLSEnabled(), TLSSettings(rmq))
         + If(rmq.MutualTLSEnabled(), MutualTLSSettings(rmq))
         + If(rmq.spec.memoryLimit > 0,
              [Entry("total_memory_available_override_value", Itoa(RemoveHeadroom(rmq.spec.memoryLimit)))]))
  }

  /** Append reloads every data source so far, then the additional configuration. */
  function UserFile(rmq: Cluster, additional: seq<Entry>): seq<Entry> {
    Load(Load(UserDefaults(rmq), If(rmq.TLSEnabled(), TLS_CONF)), additional)
  }

  /** updateProperty */
  function SetProperty(files: map<string, File>, name: string, text: string): map<string, File> {
    if text == "" then files - {name} else files[name := Text(text)]
  }

  function UpdatedFiles(rmq: Cluster, additional: seq<Entry>, files: map<string, File>): map<string, File> {
    var f1 := files[DEFAULTS_FILE := Ini(OperatorFile(rmq, additional))][USER_FILE := Ini(UserFile(rmq, additional))];
    var f2 := SetProperty(f1, ADVANCED_FILE, rmq.spec.advancedConfig);
    var f3 := SetProperty(f2, ENV_FILE, rmq.spec.envConfig);
    SetProperty(f3, INET_FILE, rmq.spec.erlangInetConfig)
  }

  // ------------------------------------------------------ the restart decision

  function EraseHints(entries: seq<Entry>): (r: seq<Entry>)
    ensures forall e :: e in r <==> e in entries && !HasPrefix(e.key, SIZE_HINT)
  {
    if entries == [] then []
    else
      var rest, last := entries[..|entries| - 1], entries[|entries| - 1];
      assert entries == rest + [last];
      EraseHints(rest) + if HasPrefix(last.key, SIZE_HINT) then [] else [last]
  }

  /** removeConfigNotRequiringNodeRestart; None when the stored text does not parse. */
  function Erased(files: map<string, File>): Option<map<string, File>> {
    if DEFAULTS_FILE !in files then Some(files)
    else
      match files[DEFAULTS_FILE]
      case Ini(entries) => Some(files[DEFAULTS_FILE := Ini(EraseHints(entries))])
      case Text(text) => if text == "" then Some(files) else None
  }

  /** ServerConfigMapBuilder.Update */
  function UpdateServerConfig(rmq: Cluster, o: Object): Mutation {
    if !o.ConfigMap? || rmq.spec.additionalConfig.None? || OwnedByOther(o.meta, rmq) then Rejected
    else
      var p := ConfigMap(Renewed(rmq, o.meta), UpdatedFiles(rmq, rmq.spec.additionalConfig.value, o.files));
      var before, after := Erased(o.files), Erased(p.files);
      if before.None? || after.None? then Rejected
      else Accepted(p, o.meta != p.meta || before.value != after.value)
  }

  // ------------------------------------------------------------------- proofs

  /** The files of two ConfigMaps ask for the same node configuration: they agree on all but size hints. */
  ghost predicate SameFiles(f: map<string, File>, g: map<string, File>) {
    && f.Keys == g.Keys
    && (forall k :: k in f && k != DEFAULTS_FILE ==> f[k] == g[k])
    && (DEFAULTS_FILE in f ==>
          || f[DEFAULTS_FILE] == g[DEFAULTS_FILE]
          || (&& f[DEFAULTS_FILE].Ini? && g[DEFAULTS_FILE].Ini?
              && EraseHints(f[DEFAULTS_FILE].entries) == EraseHints(g[DEFAULTS_FILE].entries)))
  }

  lemma ErasedAgree(f: map<string, File>, g: map<string, File>)
    requires Erased(f).Some? && Erased(g).Some?
    ensures Erased(f) == Erased(g) <==> SameFiles(f, g)
  {
    hide EraseHints;
    var e, h := Erased(f).value, Erased(g).value;
    assert e.Keys == f.Keys && h.Keys == g.Keys;
    assert forall k :: k in f && k != DEFAULTS_FILE ==> e[k] == f[k];
    assert forall k :: k in g && k != DEFAULTS_FILE ==> h[k] == g[k];
    if SameFiles(f, g) {
      forall k | k in e ensures e[k] == h[k] {
        assert k in f;
      }
      assert e == h;
    }
  }

  /** Update asks for a restart exactly when more than size hints changes. */
  lemma RestartIff(rmq: Cluster, o: Object)
    requires UpdateServerConfig(rmq, o).Accepted?
    ensures var m := UpdateServerConfig(rmq, o);
            m.restart <==> !(o.meta == m.result.meta && SameFiles(o.files, m.result.files))
  {
    hide Erased, SameFiles, UpdatedFiles, Renewed;
    ErasedAgree(o.files, UpdateServerConfig(rmq, o).result.files);
  }

  /** Putting one size hint or another into a file is the same once hints are erased. */
  lemma {:induction false} ErasePointwise(a: seq<Entry>, b: seq<Entry>)
    requires |a| == |b|
    requires forall i :: 0 <= i < |a| ==> a[i].key == b[i].key && (!HasPrefix(a[i].key, SIZE_HINT) ==> a[i] == b[i])
    ensures EraseHints(a) == EraseHints(b)
  {
    if a != [] {
      ErasePointwise(a[..|a| - 1], b[..|b| - 1]);
    }
  }

  lemma UpsertAgree(a: seq<Entry>, b: seq<Entry>, e: Entry, f: Entry)
    requires Agree(a, b) && e.key == f.key && (!HasPrefix(e.key, SIZE_HINT) ==> e == f)
    ensures Agree(Merge.Upsert(Merge.ENTRIES, a, e), Merge.Upsert(Merge.ENTRIES, b, f))
  {
    hide HasPrefix, SIZE_HINT;
    Merge.KeysPointwise(Merge.ENTRIES, a, b, e.key);
  }

  lemma {:induction false} LoadPointwise(file: seq<Entry>, gile: seq<Entry>, entries: seq<Entry>, others: seq<Entry>)
    requires Agree(file, gile) && Agree(entries, others)
    ensures Agree(Load(file, entries), Load(gile, others))
  {
    hide HasPrefix, SIZE_HINT, Merge.Upsert;
    if entries != [] {
      var n := |entries| - 1;
      LoadPointwise(file, gile, entries[..n], others[..n]);
      UpsertAgree(Load(file, entries[..n]), Load(gile, others[..n]), entries[n], others[n]);
    }
  }

  /** Same keys in the same places, same values except under size hints. */
  predicate Agree(a: seq<Entry>, b: seq<Entry>) {
    && |a| == |b|
    && forall i :: 0 <= i < |a| ==> a[i].key == b[i].key && (!HasPrefix(a[i].key, SIZE_HINT) ==> a[i] == b[i])
  }

  /** The operator file of a cluster that differs only in its replicas differs only in the hint. */
  lemma OperatorFileScaled(rmq: Cluster, replicas: nat, additional: seq<Entry>)
    ensures EraseHints(OperatorFile(rmq, additional)) == EraseHints(OperatorFile(Scaled(rmq, replicas), additional))
  {
    var base := Load([], DEFAULT_CONF);
    LoadPointwise(base, base, OperatorSettings(rmq, additional), OperatorSettings(Scaled(rmq, replicas), additional));
    ErasePointwise(OperatorFile(rmq, additional), OperatorFile(Scaled(rmq, replicas), additional));
  }

  function Scaled(rmq: Cluster, replicas: nat): Cluster {
    rmq.(spec := rmq.spec.(replicas := replicas))
  }

  /** Changing nothing but the number of replicas never asks for a restart. */
  lemma ScalingNeverRestarts(rmq: Cluster, o: Object, replicas: nat)
    requires UpdateServerConfig(rmq, o).Accepted?
    ensures var m := UpdateServerConfig(Scaled(rmq, replicas), UpdateServerConfig(rmq, o).result);
            m.Accepted? && !m.restart
  {
    var next, p := Scaled(rmq, replicas), UpdateServerConfig(rmq, o).result;
    var additional := rmq.spec.additionalConfig.value;
    hide UpdatedFiles, Erased;
    RenewedTwice(rmq, o.meta);
    assert Renewed(next, p.meta) == Renewed(rmq, p.meta);
    assert OwnedByOther(p.meta, next) == OwnedByOther(p.meta, rmq);
    hide Renewed, OwnedByOther;
    SameProperties(rmq, replicas, additional, o.files);
  }

  lemma UserFileScaled(rmq: Cluster, replicas: nat, additional: seq<Entry>)
    ensures UserFile(Scaled(rmq, replicas), additional) == UserFile(rmq, additional)
  {
    var next := Scaled(rmq, replicas);
    assert TLSSettings(next) == TLSSettings(rmq);
    assert MutualTLSSettings(next) == MutualTLSSettings(rmq);
  }

  lemma ScaledFiles(rmq: Cluster, replicas: nat, additional: seq<Entry>, files: map<string, File>)
    ensures var p := UpdatedFiles(rmq, additional, files);
            var q := UpdatedFiles(Scaled(rmq, replicas), additional, p);
            && q.Keys == p.Keys && (forall k :: k in p && k != DEFAULTS_FILE ==> q[k] == p[k])
            && DEFAULTS_FILE in p && p[DEFAULTS_FILE] == Ini(OperatorFile(rmq, additional))
            && q[DEFAULTS_FILE] == Ini(OperatorFile(Scaled(rmq, replicas), additional))
  {
    FilesApart();
    UserFileScaled(rmq, replicas, additional);
    hide OperatorFile, UserFile, DEFAULTS_FILE, USER_FILE, ADVANCED_FILE, ENV_FILE, INET_FILE;
    var p := UpdatedFiles(rmq, additional, files);
    var q := UpdatedFiles(Scaled(rmq, replicas), additional, p);
    assert q.Keys == p.Keys;
  }

  lemma SameProperties(rmq: Cluster, replicas: nat, additional: seq<Entry>, files: map<string, File>)
    ensures var p := UpdatedFiles(rmq, additional, files);
            var q := UpdatedFiles(Scaled(rmq, replicas), additional, p);
            Erased(q) == Erased(p)
  {
    hide OperatorFile, UpdatedFiles, EraseHints, Scaled, DEFAULTS_FILE;
    ScaledFiles(rmq, replicas, additional, files);
    OperatorFileScaled(rmq, replicas, additional);
    var p := UpdatedFiles(rmq, additional, files);
    ErasedAgree(UpdatedFiles(Scaled(rmq, replicas), additional, p), p);
  }

  lemma FilesApart()
    ensures DEFAULTS_FILE != USER_FILE && DEFAULTS_FILE != ADVANCED_FILE && DEFAULTS_FILE != ENV_FILE
    ensures DEFAULTS_FILE != INET_FILE
    ensures USER_FILE != ADVANCED_FILE && USER_FILE != ENV_FILE && USER_FILE != INET_FILE
    ensures ADVANCED_FILE != ENV_FILE && ADVANCED_FILE != INET_FILE && ENV_FILE != INET_FILE
  {
    assert |DEFAULTS_FILE| == 21 && |USER_FILE| == 29 && |ADVANCED_FILE| == 15 && |ENV_FILE| == 17 && |INET_FILE| == 10;
  }

  lemma UpdatedFilesTwice(rmq: Cluster, additional: seq<Entry>, files: map<string, File>)
    ensures var p := UpdatedFiles(rmq, additional, files);
            UpdatedFiles(rmq, additional, p) == p && DEFAULTS_FILE in p && p[DEFAULTS_FILE].Ini?
  {
    FilesApart();
    hide OperatorFile, UserFile, DEFAULTS_FILE, USER_FILE, ADVANCED_FILE, ENV_FILE, INET_FILE;
    var p := UpdatedFiles(rmq, additional, files);
    var q := UpdatedFiles(rmq, additional, p);
    assert q.Keys == p.Keys;
    assert forall k :: k in p ==> q[k] == p[k];
  }

  lemma OnlyConfigMaps(rmq: Cluster, o: Object)
    ensures var m := UpdateServerConfig(rmq, o);
            m.Accepted? ==>
              o.ConfigMap? && m.result == ConfigMap(Renewed(rmq, o.meta), m.result.files) && !OwnedByOther(o.meta, rmq)
  {
    hide UpdatedFiles, Erased, Renewed;
  }

  /** Update is idempotent: the second run sees its own files. */
  lemma ConfigFixed(rmq: Cluster, o: Object)
    requires UpdateServerConfig(rmq, o).Accepted?
    ensures var p := UpdateServerConfig(rmq, o).result;
            UpdateServerConfig(rmq, p).Accepted? && UpdateServerConfig(rmq, p).result == p
  {
    FilesApart();
    hide OperatorFile, UserFile, EraseHints, Renewed, OwnedByOther, DEFAULTS_FILE, USER_FILE, ADVANCED_FILE, ENV_FILE;
    hide INET_FILE;
    RenewedTwice(rmq, o.meta);
    var p := UpdateServerConfig(rmq, o).result;
    UpdatedFilesTwice(rmq, rmq.spec.additionalConfig.value, o.files);
    hide UpdatedFiles;
  }

  /** Update does not look at the operator's flags. */
  lemma ConfigIgnoresFlags(rmq: Cluster, o: Object, p: Object)
    requires Clean(rmq) && SameButFlags(o, p)
    requires UpdateServerConfig(rmq, o).Accepted? && UpdateServerConfig(rmq, o).result == o
    ensures UpdateServerConfig(rmq, p).Accepted? && UpdateServerConfig(rmq, p).result == p
  {
    hide OperatorFile, UserFile, EraseHints, Renewed, OwnedByOther;
    FlagsDoNotDisturb(rmq, o, p);
  }

  /** A key of the user's additional configuration has the user's value in the file, and stands there once. */
  lemma AdditionalWins(rmq: Cluster, additional: seq<Entry>, k: string)
    requires Merge.HasKey(Merge.ENTRIES, additional, k)
    ensures var u := UserFile(rmq, additional);
            && (exists i ::
              0 <= i < |u| && u[i] == Entry(k, additional[Merge.Last(Merge.ENTRIES, additional, k)].value))
            && Merge.UniqueKeys(Merge.ENTRIES, u)
  {
    var m := Merge.ENTRIES;
    var defaults := Load(UserDefaults(rmq), If(rmq.TLSEnabled(), TLS_CONF));
    var u := UserFile(rmq, additional);
    Merge.RulesLawful();
    Merge.MergeIdempotent(m, defaults, additional);
    assert u == Merge.Merged(m, defaults, additional);
    var i := Merge.Last(m, u, k);
    assert Merge.HasKey(m, u, k);
    assert m.put(u[i], additional[Merge.Last(m, additional, k)]) == u[i];
    KeysOnce(rmq);
    Merge.MergeKeepsUnique(m, defaults, additional);
  }

  /** What the user file is after Update. */
  lemma UserFileIs(rmq: Cluster, additional: seq<Entry>, files: map<string, File>)
    ensures var p := UpdatedFiles(rmq, additional, files);
            && USER_FILE in p && p[USER_FILE] == Ini(UserFile(rmq, additional))
            && DEFAULTS_FILE in p && p[DEFAULTS_FILE].Ini?
  {
    FilesApart();
    hide OperatorFile, UserFile, DEFAULTS_FILE, USER_FILE, ADVANCED_FILE, ENV_FILE, INET_FILE;
  }

  /** A setting the file does not have yet, added to the additional configuration, asks for a restart. */
  lemma NewSettingRestarts(rmq: Cluster, next: Cluster, o: Object, e: Entry)
    requires UpdateServerConfig(rmq, o).Accepted? && UpdateServerConfig(rmq, o).result == o
    requires e !in UserFile(rmq, rmq.spec.additionalConfig.value)
    requires next.name == rmq.name && next.spec.additionalConfig == Some(rmq.spec.additionalConfig.value + [e])
    ensures var m := UpdateServerConfig(next, o); m.Accepted? && m.restart && m.result != o
  {
    hide OperatorFile, UserFile, EraseHints, Renewed, UpdatedFiles, DEFAULTS_FILE, USER_FILE;
    var additional, longer := rmq.spec.additionalConfig.value, next.spec.additionalConfig.value;
    UserFileIs(rmq, additional, o.files);
    UserFileIs(next, longer, o.files);
    Merge.LastIs(Merge.ENTRIES, longer, |longer| - 1);
    AdditionalWins(next, longer, e.key);
    FilesApart();
    RestartIff(next, o);
  }

  /** An operator setting that the additional configuration does not mention stays as it is. */
  lemma DefaultsOtherwise(rmq: Cluster, additional: seq<Entry>, i: nat)
    requires i < |Load(UserDefaults(rmq), If(rmq.TLSEnabled(), TLS_CONF))|
    requires !Merge.HasKey(Merge.ENTRIES, additional, Load(UserDefaults(rmq), If(rmq.TLSEnabled(), TLS_CONF))[i].key)
    ensures var d := Load(UserDefaults(rmq), If(rmq.TLSEnabled(), TLS_CONF));
            i < |UserFile(rmq, additional)| && UserFile(rmq, additional)[i] == d[i]
  {
    hide UserDefaults, TLS_CONF;
    Merge.RulesLawful();
    var d := Load(UserDefaults(rmq), If(rmq.TLSEnabled(), TLS_CONF));
    Merge.MergeShape(Merge.ENTRIES, d, additional);
    assert UserFile(rmq, additional)[i] == Merge.OldEntry(Merge.ENTRIES, d, additional, i);
  }

  /** The operator file has the number of replicas as its size hint, and the cluster's name. */
  lemma OperatorFileSays(rmq: Cluster, additional: seq<Entry>)
    ensures Entry(SIZE_HINT, Itoa(rmq.spec.replicas)) in OperatorFile(rmq, additional)
    ensures Entry("cluster_name", rmq.name) in OperatorFile(rmq, additional)
  {
    Merge.RulesLawful();
    var m, base, settings := Merge.ENTRIES, Load([], DEFAULT_CONF), OperatorSettings(rmq, additional);
    SettingsLast(rmq, additional);
    hide DEFAULT_CONF, OperatorSettings, SIZE_HINT;
    Merge.MergeIdempotent(m, base, settings);
    SettingIn(base, settings, 0);
    SettingIn(base, settings, 1);
  }

  lemma SettingsLast(rmq: Cluster, additional: seq<Entry>)
    ensures var s := OperatorSettings(rmq, additional);
            && |s| >= 2 && s[0] == Entry(SIZE_HINT, Itoa(rmq.spec.replicas)) && s[1] == Entry("cluster_name", rmq.name)
            && Merge.Last(Merge.ENTRIES, s, s[0].key) == 0 && Merge.Last(Merge.ENTRIES, s, s[1].key) == 1
  {
    hide AuthMechanismsConfigured, Itoa;
    var s := OperatorSettings(rmq, additional);
    assert s[0].key != s[1].key;
    assert forall i :: 2 <= i < |s| ==> s[i].key[0] == 'a';
    assert s[0].key[0] == 'c' && s[1].key[0] == 'c';
    assert forall i :: 1 <= i < |s| ==> s[i].key != s[0].key;
    assert forall i :: 2 <= i < |s| ==> s[i].key != s[1].key;
    Merge.LastIs(Merge.ENTRIES, s, 0);
    Merge.LastIs(Merge.ENTRIES, s, 1);
  }

  lemma SettingIn(base: seq<Entry>, settings: seq<Entry>, i: nat)
    requires i < |settings| && Merge.Last(Merge.ENTRIES, settings, settings[i].key) == i
    requires Merge.Absorbed(Merge.ENTRIES, Load(base, settings), settings)
    ensures settings[i] in Load(base, settings)
  {
    var m, r, k := Merge.ENTRIES, Load(base, settings), settings[i].key;
    assert Merge.HasKey(m, settings, k);
    var at := Merge.Last(m, r, k);
    assert m.put(r[at], settings[i]) == r[at];
    assert r[at] == settings[i];
  }

  lemma KeysOnce(rmq: Cluster)
    ensures var d := Load(UserDefaults(rmq), If(rmq.TLSEnabled(), TLS_CONF));
            Merge.UniqueKeys(Merge.ENTRIES, d)
  {
    hide TLSSettings, MutualTLSSettings;
    Merge.RulesLawful();
    var m, tls := Merge.ENTRIES, If(rmq.TLSEnabled(), TLS_CONF);
    Merge.MergeKeepsUnique(m, [], tls);
    var settings := If(rmq.TLSEnabled(), TLSSettings(rmq))
         + If(rmq.MutualTLSEnabled(), MutualTLSSettings(rmq))
         + If(rmq.spec.memoryLimit > 0,
              [Entry("total_memory_available_override_value", Itoa(RemoveHeadroom(rmq.spec.memoryLimit)))]);
    Merge.MergeKeepsUnique(m, Load([], tls), settings);
    Merge.MergeKeepsUnique(m, UserDefaults(rmq), tls);
  }

  /**
    The rebalance mark is an annotation of the cluster, and Update copies it to the
    server ConfigMap like any other: with a mark the ConfigMap does not carry yet,
    Update asks for a restart even though no configuration changed.
  */
  lemma RebalanceMarkRestarts(rmq: Cluster, o: Object)
    requires UpdateServerConfig(rmq, o).Accepted?
    requires REBALANCE_NEEDED in rmq.annotations
    requires REBALANCE_NEEDED !in o.meta.annotations
              || o.meta.annotations[REBALANCE_NEEDED] != rmq.annotations[REBALANCE_NEEDED]
    ensures UpdateServerConfig(rmq, o).restart
  {
    MergeOne(o.meta.annotations, rmq.annotations, true);
    MarkIsNotKubernetes();
    var p := UpdateServerConfig(rmq, o).result;
    assert p.meta.annotations[REBALANCE_NEEDED] == rmq.annotations[REBALANCE_NEEDED];
  }

  lemma MarkIsNotKubernetes()
    ensures !IsKubernetesAnnotation(REBALANCE_NEEDED)
  {
    PartAbsent(REBALANCE_NEEDED, "kubernetes.io");
    PartAbsent(REBALANCE_NEEDED, "k8s.io");
  }

  lemma PrefixChars(s: string, part: string)
    ensures HasPrefix(s, part) ==> |part| <= |s| && forall i :: 0 <= i < |part| ==> s[i] == part[i]
  {
    if HasPrefix(s, part) {
      forall i | 0 <= i < |part| ensures s[i] == part[i] {
        assert s[..|part|][i] == part[i];
      }
    }
  }

  /** A part that contains "s." cannot occur in a text without it. */
  lemma {:induction false} PartAbsent(s: string, part: string)
    requires part == "kubernetes.io" || part == "k8s.io"
    requires forall i :: 0 <= i < |s| - 1 ==> !(s[i] == 's' && s[i + 1] == '.')
    ensures !Contains(s, part)
  {
    var i := |part| - 4;
    assert part[i] == 's' && part[i + 1] == '.';
    PrefixChars(s, part);
    if s != [] {
      PartAbsent(s[1..], part);
    }
  }

  // ------------------------------------------------------------ the loop itself

  /** The loop of removeConfigNotRequiringNodeRestart over the keys of the operator file. */
  method RemoveHints(entries: seq<Entry>) returns (r: seq<Entry>)
    ensures r == EraseHints(entries)
  {
    r := [];
    for i := 0 to |entries|
      invariant r == EraseHints(entries[..i])
    {
      assert entries[..i + 1][..i] == entries[..i];
      if !HasPrefix(entries[i].key, SIZE_HINT) {
        r := r + [entries[i]];
      }
    }
    assert entries[..|entries|] == entries;
  }
}
