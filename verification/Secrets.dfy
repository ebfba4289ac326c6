/** The two secrets (internal/resource/default_user_secret.go and erlang_cookie.go). */
module Secrets {
  import opened Basics
  import opened Objects
  import opened Store
  import opened Metadata

  const COOKIE_FILE := ".erlang.cookie"
  const USER_CONF := "default_user.conf"

  const USERNAME := "username"
  const PASSWORD := "password"
  const HOST := "host"
  const PORT := "port"
  const CONNECTION := "connection_string"
  const AMQP := "5672"
  const AMQPS := "5671"
  const SCHEME := "amqp://"
  const TLS_SCHEME := "amqps://"

  /** The optional ports: which plugin each belongs to, and its two values. */
  const PORT_NAMES: StrMap := map[
    "rabbitmq_mqtt" := "mqtt-port", "rabbitmq_stomp" := "stomp-port", "rabbitmq_stream" := "stream-port",
    "rabbitmq_web_mqtt" := "web-mqtt-port", "rabbitmq_web_stomp" := "web-stomp-port"]
  const PLUGIN_OF: StrMap := map[
    "mqtt-port" := "rabbitmq_mqtt", "stomp-port" := "rabbitmq_stomp", "stream-port" := "rabbitmq_stream",
    "web-mqtt-port" := "rabbitmq_web_mqtt", "web-stomp-port" := "rabbitmq_web_stomp"]
  const PORTS: StrMap := map[
    "mqtt-port" := "1883", "stomp-port" := "61613", "stream-port" := "5552",
    "web-mqtt-port" := "15675", "web-stomp-port" := "15674"]
  const TLS_PORTS: StrMap := map[
    "mqtt-port" := "8883", "stomp-port" := "61614", "stream-port" := "5551",
    "web-mqtt-port" := "15676", "web-stomp-port" := "15673"]

  // ------------------------------------------------------------ specification

  function Table(rmq: Cluster): (t: StrMap)
    ensures t.Keys == PLUGIN_OF.Keys
  {
    if rmq.SecretTLSEnabled() then TLS_PORTS else PORTS
  }

  /** The ports of the enabled plugins. */
  function PluginPorts(rmq: Cluster): StrMap {
    map name | name in PLUGIN_OF && rmq.PluginEnabled(PLUGIN_OF[name]) :: Table(rmq)[name]
  }

  /** updatePorts: one port entry per enabled plugin, none for the others. */
  function WithPorts(rmq: Cluster, data: StrMap): StrMap {
    (data - PLUGIN_OF.Keys)[PORT := if rmq.SecretTLSEnabled() then AMQPS else AMQP] + PluginPorts(rmq)
  }

  function Spelled(secure: bool, username: string, password: string, host: string, port: string): string {
    (if secure then TLS_SCHEME else SCHEME) + username + ":" + password + "@" + host + ":" + port + "/"
  }

  function ConnectionString(secure: bool, data: StrMap): string {
    Spelled(secure, Lookup(data, USERNAME), Lookup(data, PASSWORD), Lookup(data, HOST), Lookup(data, PORT))
  }

  function WithConnectionString(rmq: Cluster, data: StrMap): StrMap {
    data[CONNECTION := ConnectionString(rmq.SecretTLSEnabled(), data)]
  }

  function UpdatedData(rmq: Cluster, data: StrMap): StrMap {
    WithConnectionString(rmq, WithPorts(rmq, data))
  }

  /** generateUsername on 32 encoded characters: the prefix replaces as many of the last ones. */
  function Username(encoded: string): string {
    "default_user_" + if |encoded| < 13 then "" else encoded[..|encoded| - 13]
  }

  /** generateDefaultUserConf */
  function UserConf(username: string, password: string): string {
    "default_user = " + username + "\ndefault_pass = " + password + "\n"
  }

  /** The credentials, the file and the address, before ports and connection string. */
  function Written(host: string, username: string, password: string): StrMap {
    map[USERNAME := username, PASSWORD := password, USER_CONF := UserConf(username, password),
        "type" := "rabbitmq", "provider" := "rabbitmq", HOST := host]
  }

  /** Build draws the username and then the password. */
  function BuildData(rmq: Cluster, drawn: string): StrMap {
    var half := |drawn| / 2;
    UpdatedData(rmq, Written(rmq.name + "." + rmq.namespace + ".svc", Username(drawn[..half]), drawn[half..]))
  }

  function BuildDefaultUser(rmq: Cluster, drawn: string): Object {
    Secret(Initial(rmq), BuildData(rmq, drawn))
  }

  function BuildCookie(rmq: Cluster, drawn: string): Object {
    Secret(Initial(rmq), map[COOKIE_FILE := drawn])
  }

  // ------------------------------------------- what the specification promises

  /** Keys Update may write; every other key, the credentials among them, is kept. */
  predicate Maintained(k: string) {
    k in PLUGIN_OF || k == PORT || k == CONNECTION
  }

  /** The stored connection string is the one the stored credentials, host and port spell. */
  predicate Agrees(data: StrMap) {
    && CONNECTION in data
    && (Lookup(data, PORT) == AMQPS || Lookup(data, PORT) == AMQP)
    && data[CONNECTION] == ConnectionString(Lookup(data, PORT) == AMQPS, data)
  }

  // --------------------------------------------- reading default_user.conf back

  /** What stands after "key = " on the first line that begins so. */
  function SettingIn(lines: seq<string>, key: string): Option<string> {
    if lines == [] then None
    else if HasPrefix(lines[0], key + " = ") then Some(lines[0][|key| + 3..])
    else SettingIn(lines[1..], key)
  }

  /** An independent reader of files with a "key = value" a line. */
  function ReadSetting(text: string, key: string): Option<string> { SettingIn(Split(text, '\n'), key) }

  /** The user that default_user.conf makes the broker create is the one that the secret publishes. */
  ghost predicate LogsIn(data: StrMap) {
    && "username" in data && "password" in data && "default_user.conf" in data
    && ReadSetting(data["default_user.conf"], "default_user") == Some(data["username"])
    && ReadSetting(data["default_user.conf"], "default_pass") == Some(data["password"])
  }

  lemma {:induction false} SplitLine(line: string, rest: string)
    requires '\n' !in line
    ensures Split(line + ['\n'] + rest, '\n') == [line] + Split(rest, '\n')
  {
    var s := line + ['\n'] + rest;
    if line == [] {
      assert s[1..] == rest;
    } else {
      SplitLine(line[1..], rest);
      assert s[1..] == line[1..] + ['\n'] + rest;
      assert [line[0]] + line[1..] == line;
    }
  }

  lemma LineReads(key: string, value: string)
    ensures var line := key + " = " + value; HasPrefix(line, key + " = ") && line[|key| + 3..] == value
  {
    var line := key + " = " + value;
    assert line[..|key + " = "|] == key + " = ";
  }

  lemma TwoLines(first: string, second: string)
    requires '\n' !in first && '\n' !in second
    ensures Split(first + ['\n'] + (second + ['\n'] + ""), '\n') == [first, second, ""]
  {
    SplitLine(second, "");
    SplitLine(first, second + ['\n'] + "");
  }

  lemma UserConfIs(username: string, password: string)
    ensures UserConf(username, password) ==
              ("default_user" + " = " + username) + ['\n'] + (("default_pass" + " = " + password) + ['\n'] + "")
  {
    assert "\ndefault_pass = " == ['\n'] + "default_pass" + " = ";
  }

  lemma KeysOfLines(username: string)
    ensures !HasPrefix("default_user" + " = " + username, "default_pass" + " = ")
  {
    var first, prefix := "default_user" + " = " + username, "default_pass" + " = ";
    assert first[8] == 'u' && prefix[8] == 'p';
    PrefixAt(first, prefix, 8);
  }

  lemma ConfReadsBack(username: string, password: string)
    requires '\n' !in username && '\n' !in password
    ensures ReadSetting(UserConf(username, password), "default_user") == Some(username)
    ensures ReadSetting(UserConf(username, password), "default_pass") == Some(password)
  {
    var first, second := "default_user" + " = " + username, "default_pass" + " = " + password;
    UserConfIs(username, password);
    LineReads("default_user", username);
    LineReads("default_pass", password);
    KeysOfLines(username);
    TwoLines(first, second);
    hide UserConf, Split, HasPrefix;
    var lines := [first, second, ""];
    assert lines[1..] == [second, ""];
    assert SettingIn(lines, "default_user") == Some(username);
    assert SettingIn(lines[1..], "default_pass") == Some(password);
  }

  /** Read and published credentials stay together while both are kept. */
  lemma LogsInKept(data: StrMap, r: StrMap)
    requires LogsIn(data)
    requires forall k :: !Maintained(k) ==> (k in r <==> k in data) && (k in data ==> r[k] == data[k])
    ensures LogsIn(r) && Lookup(r, "host") == Lookup(data, "host")
  {
    assert !Maintained("username") && !Maintained("password") && !Maintained("default_user.conf")
      && !Maintained("host");
    hide ReadSetting, Maintained;
  }

  lemma WrittenSays(host: string, username: string, password: string)
    requires '\n' !in username && '\n' !in password
    ensures var d := Written(host, username, password);
            && LogsIn(d) && d["username"] == username && d["password"] == password && Lookup(d, "host") == host
            && Lookup(d, "type") == "rabbitmq" && Lookup(d, "provider") == "rabbitmq"
  {
    ConfReadsBack(username, password);
    hide ReadSetting, UserConf;
  }

  lemma EncodedUsername(encoded: Encoded)
    ensures var u := Username(encoded);
            && '\n' !in u && "default_user_" <= u && u[13..] <= encoded && (|encoded| == 32 ==> |u| == 32)
  {
    var u := Username(encoded);
    assert forall i :: 0 <= i < 13 ==> "default_user_"[i] != '\n';
    assert forall i :: 13 <= i < |u| ==> u[i] == encoded[i - 13];
    assert u[13..] == if |encoded| < 13 then "" else encoded[..|encoded| - 13];
  }

  lemma HalfEncoded(drawn: Encoded, i: nat, j: nat) returns (half: Encoded)
    requires i <= j <= |drawn|
    ensures half == drawn[i..j] && '\n' !in half
  {
    half := drawn[i..j];
  }

  /**
    What Build puts into the user secret: a user with the operator's prefix and a password, drawn
    from different bytes, the file that makes the broker create exactly this user, and the
    address of the client service.
  */
  lemma BuiltCredentials(rmq: Cluster, drawn: Encoded)
    ensures var d, half := BuildData(rmq, drawn), |drawn| / 2;
            && LogsIn(d) && Lookup(d, "host") == rmq.name + "." + rmq.namespace + ".svc"
            && "default_user_" <= d["username"] && d["username"][13..] <= drawn[..half]
            && d["password"] == drawn[half..]
            && (|drawn| == 64 ==> |d["username"]| == 32 && |d["password"]| == 32)
            && Lookup(d, "type") == "rabbitmq" && Lookup(d, "provider") == "rabbitmq"
  {
    hide LogsIn, UpdatedData, Maintained, Username, UserConf;
    var half := |drawn| / 2;
    var front := HalfEncoded(drawn, 0, half);
    var back := HalfEncoded(drawn, half, |drawn|);
    EncodedUsername(front);
    var host := rmq.name + "." + rmq.namespace + ".svc";
    var written := Written(host, Username(front), back);
    WrittenSays(host, Username(front), back);
    assert drawn[0..half] == drawn[..half] && drawn[half..|drawn|] == drawn[half..];
    assert BuildData(rmq, drawn) == UpdatedData(rmq, written);
    UpdateKeepsCredentials(rmq, written);
    PublishedKept(written, BuildData(rmq, drawn));
  }

  lemma PublishedKept(data: StrMap, r: StrMap)
    requires LogsIn(data)
    requires forall k :: !Maintained(k) ==> (k in r <==> k in data) && (k in data ==> r[k] == data[k])
    ensures LogsIn(r) && r["username"] == data["username"] && r["password"] == data["password"]
    ensures Lookup(r, "host") == Lookup(data, "host") && Lookup(r, "type") == Lookup(data, "type")
    ensures Lookup(r, "provider") == Lookup(data, "provider")
  {
    LogsInKept(data, r);
    assert !Maintained("username") && !Maintained("password") && !Maintained("type") && !Maintained("provider");
    hide ReadSetting, Maintained;
  }

  /** The cookie is what was drawn, under the one key the nodes mount. */
  lemma BuiltCookie(rmq: Cluster, drawn: Encoded)
    ensures var o := BuildCookie(rmq, drawn); o.Secret? && o.data == map[".erlang.cookie" := drawn]
  {
  }

  /** The entry is there exactly if the plugin is enabled, and then with this port. */
  ghost predicate PortIs(data: StrMap, name: string, enabled: bool, port: string) {
    (name in data <==> enabled) && (enabled ==> data[name] == port)
  }

  /** The ports that clients find in the secret: with TLS the secure ones, and only those of enabled plugins. */
  ghost predicate PortsAre(tls: bool, plugins: seq<string>, data: StrMap) {
    && PortIs(data, "port", true, if tls then "5671" else "5672")
    && PortIs(data, "mqtt-port", "rabbitmq_mqtt" in plugins, if tls then "8883" else "1883")
    && PortIs(data, "stomp-port", "rabbitmq_stomp" in plugins, if tls then "61614" else "61613")
    && PortIs(data, "stream-port", "rabbitmq_stream" in plugins, if tls then "5551" else "5552")
    && PortIs(data, "web-mqtt-port", "rabbitmq_web_mqtt" in plugins, if tls then "15676" else "15675")
    && PortIs(data, "web-stomp-port", "rabbitmq_web_stomp" in plugins, if tls then "15673" else "15674")
  }

  lemma TablesSay()
    ensures forall name :: name in PLUGIN_OF <==>
              || name == "mqtt-port" || name == "stomp-port" || name == "stream-port" || name == "web-mqtt-port"
              || name == "web-stomp-port"
    ensures PLUGIN_OF["mqtt-port"] == "rabbitmq_mqtt" && PLUGIN_OF["stomp-port"] == "rabbitmq_stomp"
    ensures PLUGIN_OF["stream-port"] == "rabbitmq_stream" && PLUGIN_OF["web-mqtt-port"] == "rabbitmq_web_mqtt"
    ensures PLUGIN_OF["web-stomp-port"] == "rabbitmq_web_stomp"
  {
  }

  lemma PortTablesSay()
    ensures PORTS.Keys == PLUGIN_OF.Keys == TLS_PORTS.Keys
    ensures "mqtt-port" in PORTS && "stomp-port" in PORTS && "stream-port" in PORTS && "web-mqtt-port" in PORTS
      && "web-stomp-port" in PORTS
    ensures PORTS["mqtt-port"] == "1883" && PORTS["stomp-port"] == "61613" && PORTS["stream-port"] == "5552"
    ensures PORTS["web-mqtt-port"] == "15675" && PORTS["web-stomp-port"] == "15674"
    ensures TLS_PORTS["mqtt-port"] == "8883" && TLS_PORTS["stomp-port"] == "61614" && TLS_PORTS["stream-port"] == "5551"
    ensures TLS_PORTS["web-mqtt-port"] == "15676" && TLS_PORTS["web-stomp-port"] == "15673"
  {
  }

  /** The table has these entries, and no more. */
  lemma PortsIff(rmq: Cluster, data: StrMap)
    ensures PortsAre(rmq.spec.tlsSecret != "", rmq.spec.plugins, data) <==>
              && PORT in data && data[PORT] == (if rmq.SecretTLSEnabled() then AMQPS else AMQP)
              && forall name :: name in PLUGIN_OF ==>
                   && (name in data <==> rmq.PluginEnabled(PLUGIN_OF[name]))
                   && (name in data ==> data[name] == Table(rmq)[name])
  {
    TablesSay();
    PortTablesSay();
    hide PLUGIN_OF, PORTS, TLS_PORTS;
  }

  lemma KeysApart()
    ensures PORT !in PLUGIN_OF && CONNECTION !in PLUGIN_OF && PORT != CONNECTION && AMQP != AMQPS
    ensures AMQP != "" && AMQPS != ""
    ensures !Maintained(USERNAME) && !Maintained(PASSWORD) && !Maintained(HOST)
  {
  }

  /** Update keeps every credential and re-establishes the agreement, from any stored data. */
  lemma UpdateKeepsCredentials(rmq: Cluster, data: StrMap)
    ensures var r := UpdatedData(rmq, data);
            && (forall k :: !Maintained(k) ==> (k in r <==> k in data) && (k in data ==> r[k] == data[k]))
            && Agrees(r) && Lookup(r, PORT) == (if rmq.SecretTLSEnabled() then AMQPS else AMQP)
            && (forall name :: name in PLUGIN_OF ==>
                  (name in r <==> rmq.PluginEnabled(PLUGIN_OF[name])) && (name in r ==> r[name] == Table(rmq)[name]))
  {
    KeysApart();
    hide PLUGIN_OF, PORTS, TLS_PORTS, USERNAME, PASSWORD, HOST, PORT, CONNECTION, AMQP, AMQPS, Spelled;
    var d := WithPorts(rmq, data);
    assert forall k :: !Maintained(k) ==> (k in d <==> k in data) && (k in data ==> d[k] == data[k]);
    var r := UpdatedData(rmq, data);
    assert forall k :: k != CONNECTION ==> Lookup(r, k) == Lookup(d, k);
    assert d[PORT] == if rmq.SecretTLSEnabled() then AMQPS else AMQP;
  }

  /** A second Update of the same cluster finds nothing to do. */
  lemma UpdateTwice(rmq: Cluster, data: StrMap)
    ensures UpdatedData(rmq, UpdatedData(rmq, data)) == UpdatedData(rmq, data)
  {
    KeysApart();
    hide PLUGIN_OF, PORTS, TLS_PORTS, USERNAME, PASSWORD, HOST, PORT, CONNECTION, AMQP, AMQPS, Spelled;
    var r := UpdatedData(rmq, data);
    var t := UpdatedData(rmq, r);
    UpdateKeepsCredentials(rmq, data);
    UpdateKeepsCredentials(rmq, r);
    hide UpdatedData;
    forall k ensures (k in t <==> k in r) && (k in r ==> t[k] == r[k]) {
      if k in PLUGIN_OF {
      } else if k == CONNECTION {
        assert Lookup(t, USERNAME) == Lookup(r, USERNAME) && Lookup(t, PASSWORD) == Lookup(r, PASSWORD);
        assert Lookup(t, HOST) == Lookup(r, HOST) && Lookup(t, PORT) == Lookup(r, PORT);
      }
    }
    assert t == r;
  }

  // ------------------------------------------------- reading the string back

  datatype Address = Address(secure: bool, username: string, password: string, host: string, port: string)

  /** What stands before the first occurrence of a character, and what after it. */
  function Cut(s: string, c: char): Option<(string, string)> {
    if s == [] then None
    else if s[0] == c then Some(("", s[1..]))
    else
      match Cut(s[1..], c)
      case None => None
      case Some((a, b)) => Some(([s[0]] + a, b))
  }

  function ParseHost(secure: bool, username: string, password: string, s: string): Option<Address> {
    match Cut(s, ':')
    case None => None
    case Some((host, rest)) =>
      match Cut(rest, '/')
      case None => None
      case Some((port, _)) => Some(Address(secure, username, password, host, port))
  }

  function ParseAuthority(secure: bool, s: string): Option<Address> {
    match Cut(s, ':')
    case None => None
    case Some((username, rest)) =>
      match Cut(rest, '@')
      case None => None
      case Some((password, address)) => ParseHost(secure, username, password, address)
  }

  /** An independent reader of amqp and amqps addresses. */
  function ParseAddress(s: string): Option<Address> {
    if HasPrefix(s, TLS_SCHEME) then ParseAuthority(true, s[|TLS_SCHEME|..])
    else if HasPrefix(s, SCHEME) then ParseAuthority(false, s[|SCHEME|..])
    else None
  }

  lemma {:induction false} CutAt(a: string, c: char, b: string)
    requires c !in a
    ensures Cut(a + [c] + b, c) == Some((a, b))
  {
    var s := a + [c] + b;
    if a == [] {
      assert s[1..] == b;
    } else {
      CutAt(a[1..], c, b);
      assert s[1..] == a[1..] + [c] + b;
      assert [a[0]] + a[1..] == a;
    }
  }

  lemma HostReadsBack(secure: bool, username: string, password: string, host: string, port: string)
    requires ':' !in host && '/' !in port
    ensures ParseHost(secure, username, password, host + [':'] + (port + ['/'] + "")) ==
              Some(Address(secure, username, password, host, port))
  {
    CutAt(host, ':', port + ['/'] + "");
    CutAt(port, '/', "");
    hide Cut;
  }

  lemma AuthorityReadsBack(secure: bool, username: string, password: string, host: string, port: string)
    requires ':' !in username && '@' !in password && ':' !in host && '/' !in port
    ensures ParseAuthority(secure, username + ":" + password + "@" + host + ":" + port + "/")
         == Some(Address(secure, username, password, host, port))
  {
    hide Cut, ParseHost;
    var address := host + [':'] + (port + ['/'] + "");
    var rest := password + ['@'] + address;
    CutAt(username, ':', rest);
    CutAt(password, '@', address);
    HostReadsBack(secure, username, password, host, port);
    assert username + ":" + password + "@" + host + ":" + port + "/" == username + [':'] + rest;
  }

  /** The two schemes are told apart by their fifth character. */
  lemma SchemesApart(rest: string)
    ensures !HasPrefix(SCHEME + rest, TLS_SCHEME)
  {
    var s := SCHEME + rest;
    assert s[4] == ':' && TLS_SCHEME[4] == 's';
    PrefixAt(s, TLS_SCHEME, 4);
  }

  lemma SpelledReadsBack(secure: bool, username: string, password: string, host: string, port: string)
    requires ':' !in username && '@' !in password && ':' !in host && '/' !in port
    ensures ParseAddress(Spelled(secure, username, password, host, port))
         == Some(Address(secure, username, password, host, port))
  {
    AuthorityReadsBack(secure, username, password, host, port);
    var rest := username + ":" + password + "@" + host + ":" + port + "/";
    SchemesApart(rest);
    hide ParseAuthority, TLS_SCHEME, SCHEME;
    var scheme := if secure then TLS_SCHEME else SCHEME;
    var s := Spelled(secure, username, password, host, port);
    assert s == scheme + rest;
    assert s[..|scheme|] == scheme && s[|scheme|..] == rest;
  }

  /** The connection string reads back as exactly the stored user, password, host and port. */
  lemma ConnectionStringReadsBack(data: StrMap)
    requires Agrees(data)
    requires ':' !in Lookup(data, USERNAME) && '@' !in Lookup(data, PASSWORD) && ':' !in Lookup(data, HOST)
    ensures ParseAddress(data[CONNECTION]) == Some(Address(
              Lookup(data, PORT) == AMQPS,
              Lookup(data, USERNAME), Lookup(data, PASSWORD), Lookup(data, HOST), Lookup(data, PORT)))
  {
    assert '/' !in AMQP && '/' !in AMQPS;
    hide ParseAddress, Spelled, Lookup, USERNAME, PASSWORD, HOST, PORT, CONNECTION, AMQP, AMQPS;
    SpelledReadsBack(Lookup(data, PORT) == AMQPS,
                     Lookup(data, USERNAME), Lookup(data, PASSWORD), Lookup(data, HOST), Lookup(data, PORT));
  }

  lemma PrefixAt(s: string, prefix: string, i: nat)
    requires i < |prefix|
    ensures HasPrefix(s, prefix) ==> |prefix| <= |s| && s[i] == prefix[i]
  {
    if HasPrefix(s, prefix) {
      assert s[..|prefix|][i] == s[i];
    }
  }

  // ----------------------------------------------------------------- the loops

  lemma TablesInverse()
    ensures PORT !in PLUGIN_OF
    ensures forall plugin :: plugin in PORT_NAMES ==>
              PORT_NAMES[plugin] in PLUGIN_OF && PLUGIN_OF[PORT_NAMES[plugin]] == plugin
    ensures forall name :: name in PLUGIN_OF ==>
              PLUGIN_OF[name] in PORT_NAMES && PORT_NAMES[PLUGIN_OF[name]] == name
  {
  }

  /** The entry of one optional port is as specified. */
  predicate PortDone(rmq: Cluster, r: StrMap, name: string)
    requires name in PLUGIN_OF
  {
    (name in r <==> rmq.PluginEnabled(PLUGIN_OF[name])) && (name in r ==> r[name] == Table(rmq)[name])
  }

  predicate SameElsewhere(start: StrMap, r: StrMap) {
    r - PLUGIN_OF.Keys == start - PLUGIN_OF.Keys
  }

  lemma PortsComplete(rmq: Cluster, data: StrMap, r: StrMap)
    requires SameElsewhere(data[PORT := if rmq.SecretTLSEnabled() then AMQPS else AMQP], r)
    requires forall name :: name in PLUGIN_OF ==> PortDone(rmq, r, name)
    ensures r == WithPorts(rmq, data)
  {
    TablesInverse();
    hide PLUGIN_OF, PORT_NAMES, PORTS, TLS_PORTS, PORT, AMQP, AMQPS;
    var start := data[PORT := if rmq.SecretTLSEnabled() then AMQPS else AMQP];
    var spec := WithPorts(rmq, data);
    forall k ensures (k in r <==> k in spec) && (k in r ==> r[k] == spec[k]) {
      if k in PLUGIN_OF {
        assert PortDone(rmq, r, k);
      } else {
        assert (k in r <==> k in r - PLUGIN_OF.Keys) && (k in start <==> k in start - PLUGIN_OF.Keys);
      }
    }
    assert r == spec;
  }

  /** updatePorts walks its table in no particular order. */
  method UpdatePorts(rmq: Cluster, data: StrMap) returns (r: StrMap)
    ensures r == WithPorts(rmq, data)
  {
    TablesInverse();
    hide PLUGIN_OF, PORT_NAMES, PORTS, TLS_PORTS, PORT, AMQP, AMQPS;
    r := data[PORT := if rmq.SecretTLSEnabled() then AMQPS else AMQP];
    ghost var start := r;
    var todo := PORT_NAMES.Keys;
    while todo != {}
      invariant todo <= PORT_NAMES.Keys
      invariant SameElsewhere(start, r)
      invariant forall name :: name in PLUGIN_OF && PLUGIN_OF[name] !in todo ==> PortDone(rmq, r, name)
      decreases |todo|
    {
      var plugin :| plugin in todo;
      todo := todo - {plugin};
      var name := PORT_NAMES[plugin];
      if rmq.PluginEnabled(plugin) {
        r := r[name := Table(rmq)[name]];
      } else {
        r := r - {name};
      }
    }
    PortsComplete(rmq, data, r);
  }
}
