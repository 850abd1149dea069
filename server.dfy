/** The gateway server record, the database URL its health probe uses, and
    its route table. */
module GatewayServer {
  import opened Strings
  import opened Pipeline

  /** An object the server holds without looking inside: the database pool,
      the broker writer, the health checker, the auth and secret plugins. */
  datatype Ref = Ref(id: nat)

  datatype IngestGatewayServer = IngestGatewayServer(
    db: Ref,
    writer: Ref,
    brokerUrl: string,
    healthChecker: Ref,
    authPlugin: Ref,
    secretPlugin: Ref)

  /** The constructor keeps each dependency in its own field. */
  function NewIngestGatewayServer(
    db: Ref, writer: Ref, brokerUrl: string, healthChecker: Ref, authPlugin: Ref, secretPlugin: Ref
  ): (s: IngestGatewayServer)
    ensures s.db == db && s.writer == writer && s.brokerUrl == brokerUrl
    ensures s.healthChecker == healthChecker
    ensures s.authPlugin == authPlugin && s.secretPlugin == secretPlugin
  {
    IngestGatewayServer(db, writer, brokerUrl, healthChecker, authPlugin, secretPlugin)
  }

  /** The configuration fields the handler setup reads. */
  datatype GatewayBaseConfig = GatewayBaseConfig(
    httpPort: int,
    dbUrl: string,
    dbHost: string,
    dbPort: string,
    dbUser: string,
    dbPassword: string,
    dbName: string)

  const Scheme := "postgres://"
  const DefaultDbPort := "26257"

  function EffectivePort(port: string): (p: string)
    ensures port == "" ==> p == "26257"
    ensures port != "" ==> p == port
  {
    if port == "" then DefaultDbPort else port
  }

  /** The database URL handed to the health endpoints: the configured URL when
      there is one, otherwise one assembled from the parts. */
  function HealthDbUrl(cfg: GatewayBaseConfig): (url: string)
    ensures cfg.dbUrl != "" ==> url == cfg.dbUrl
    ensures cfg.dbUrl == "" ==> |url| > |Scheme| && url[..|Scheme|] == Scheme
    ensures cfg.dbUrl == "" ==>
      |url| > |cfg.dbName| && url[|url| - |cfg.dbName| - 1..] == "/" + cfg.dbName
  {
    if cfg.dbUrl != "" then cfg.dbUrl
    else
      var hostPort := cfg.dbHost + ":" + EffectivePort(cfg.dbPort);
      var authority :=
        if cfg.dbUser != "" then
          if cfg.dbPassword != "" then cfg.dbUser + ":" + cfg.dbPassword + "@" + hostPort
          else cfg.dbUser + "@" + hostPort
        else hostPort;
      var url := Scheme + authority + "/" + cfg.dbName;
      assert url[..|Scheme|] == Scheme;
      assert url[|url| - |cfg.dbName| - 1..] == "/" + cfg.dbName;
      url
  }

  /** The parts a PostgreSQL client reads back out of such a URL; `password` is
      `None` when the user information has no ':' at all. */
  datatype DbUrlParts = DbUrlParts(user: string, password: Option<string>, host: string, port: string, name: string)

  /** Reads `postgres://[user[:password]@]host:port/name`. */
  function ParseDbUrl(url: string): Option<DbUrlParts> {
    if |url| < |Scheme| || url[..|Scheme|] != Scheme then None
    else
      var rest := url[|Scheme|..];
      var slash := IndexOf(rest, '/');
      if slash < 0 then None else ParseAuthority(rest[..slash], rest[slash + 1..])
  }

  /** Reads `[user[:password]@]host:port`, the part between the scheme and the first '/'. */
  function ParseAuthority(authority: string, name: string): Option<DbUrlParts> {
    var at := IndexOf(authority, '@');
    var userinfo := if at < 0 then "" else authority[..at];
    var hostport := if at < 0 then authority else authority[at + 1..];
    var colon := IndexOf(hostport, ':');
    if colon < 0 then None
    else
      var (user, password) := ParseUserInfo(userinfo);
      Some(DbUrlParts(user, password, hostport[..colon], hostport[colon + 1..], name))
  }

  /** Reads `user[:password]`; the password is present only after a ':'. */
  function ParseUserInfo(userinfo: string): (string, Option<string>) {
    var uc := IndexOf(userinfo, ':');
    if uc < 0 then (userinfo, None) else (userinfo[..uc], Some(userinfo[uc + 1..]))
  }

  /** A URL component free of the separators '@', ':' and '/'. */
  predicate Plain(s: string) {
    '@' !in s && ':' !in s && '/' !in s
  }

  /** Splitting `a + [c] + b` at its first `c`. */
  lemma SplitAt(a: string, c: char, b: string)
    requires c !in a
    ensures var s := a + [c] + b; var k := IndexOf(s, c);
      k == |a| && s[..k] == a && s[k + 1..] == b
  {
    IndexOfSplit(a, c, b);
    var s := a + [c] + b;
    assert s[..|a|] == a;
    assert s[|a| + 1..] == b;
  }

  lemma SchemeRoundTrip(authority: string, name: string)
    requires '/' !in authority
    ensures ParseDbUrl(Scheme + authority + "/" + name) == ParseAuthority(authority, name)
  {
    var url := Scheme + authority + "/" + name;
    assert url[..|Scheme|] == Scheme;
    assert url[|Scheme|..] == authority + ['/'] + name;
    SplitAt(authority, '/', name);
  }

  lemma HostPortRoundTrip(host: string, port: string, name: string)
    requires Plain(host) && Plain(port)
    ensures ParseAuthority(host + ":" + port, name) == Some(DbUrlParts("", None, host, port, name))
  {
    assert host + ":" + port == host + [':'] + port;
    SplitAt(host, ':', port);
  }

  lemma UserInfoRoundTrip(userinfo: string, user: string, password: Option<string>)
    requires ':' !in user
    requires password.None? ==> userinfo == user
    requires password.Some? ==> userinfo == user + ":" + password.value
    ensures ParseUserInfo(userinfo) == (user, password)
  {
    if password.Some? {
      assert userinfo == user + [':'] + password.value;
      SplitAt(user, ':', password.value);
    }
  }

  lemma CredentialsRoundTrip(userinfo: string, host: string, port: string, name: string, user: string, password: Option<string>)
    requires Plain(host) && Plain(port) && '@' !in userinfo && Plain(user)
    requires password.None? ==> userinfo == user
    requires password.Some? ==> userinfo == user + ":" + password.value
    ensures ParseAuthority(userinfo + "@" + (host + ":" + port), name) == Some(DbUrlParts(user, password, host, port, name))
  {
    var hostport := host + ":" + port;
    assert userinfo + "@" + hostport == userinfo + ['@'] + hostport;
    SplitAt(userinfo, '@', hostport);
    assert hostport == host + [':'] + port;
    SplitAt(host, ':', port);
    UserInfoRoundTrip(userinfo, user, password);
  }

  /** The assembled URL reads back as the configured parts, with the default
      port filled in. A password is read back only when a user and a non-empty
      password are both configured: `user@host` carries no ':' and so no password. */
  lemma {:induction false} DbUrlRoundTrip(cfg: GatewayBaseConfig)
    requires cfg.dbUrl == ""
    requires Plain(cfg.dbUser) && Plain(cfg.dbHost) && Plain(cfg.dbPort)
    requires '@' !in cfg.dbPassword && '/' !in cfg.dbPassword
    ensures ParseDbUrl(HealthDbUrl(cfg)) == Some(DbUrlParts(
      cfg.dbUser,
      if cfg.dbUser == "" || cfg.dbPassword == "" then None else Some(cfg.dbPassword),
      cfg.dbHost,
      EffectivePort(cfg.dbPort),
      cfg.dbName))
  {
    var port := EffectivePort(cfg.dbPort);
    assert Plain(port);
    var host, name := cfg.dbHost, cfg.dbName;
    var hostport := host + ":" + port;
    if cfg.dbUser == "" {
      SchemeRoundTrip(hostport, name);
      HostPortRoundTrip(host, port, name);
    } else {
      var userinfo := if cfg.dbPassword == "" then cfg.dbUser else cfg.dbUser + ":" + cfg.dbPassword;
      var authority := userinfo + "@" + hostport;
      assert HealthDbUrl(cfg) == Scheme + authority + "/" + name;
      SchemeRoundTrip(authority, name);
      var password := if cfg.dbPassword == "" then None else Some(cfg.dbPassword);
      CredentialsRoundTrip(userinfo, host, port, name, cfg.dbUser, password);
    }
  }

  /** Without a user the assembled URL carries no credentials: when the host,
      port and name hold no '@', the URL holds one exactly when a user is set. */
  lemma CredentialsMarkerIffUser(cfg: GatewayBaseConfig)
    requires cfg.dbUrl == ""
    requires '@' !in cfg.dbHost && '@' !in cfg.dbPort && '@' !in cfg.dbName
    ensures '@' in HealthDbUrl(cfg) <==> cfg.dbUser != ""
  {
    var hostPort := cfg.dbHost + ":" + EffectivePort(cfg.dbPort);
    assert '@' !in hostPort;
    assert '@' !in Scheme;
    if cfg.dbUser == "" {
      assert HealthDbUrl(cfg) == Scheme + hostPort + "/" + cfg.dbName;
    } else {
      var userinfo := if cfg.dbPassword == "" then cfg.dbUser else cfg.dbUser + ":" + cfg.dbPassword;
      var url := Scheme + (userinfo + "@" + hostPort) + "/" + cfg.dbName;
      assert HealthDbUrl(cfg) == url;
      assert url[|Scheme| + |userinfo|] == '@';
    }
  }

  /** Credentials go into the URL unescaped, so a '/' in the password ends the
      authority early: the URL then reads back with no user, the user as host,
      the password's first part as port, and the rest of the URL as database. */
  lemma UnescapedPasswordMisread(cfg: GatewayBaseConfig, before: string, after: string)
    requires cfg.dbUrl == "" && cfg.dbUser != "" && Plain(cfg.dbUser) && Plain(before)
    requires cfg.dbPassword == before + "/" + after
    ensures ParseDbUrl(HealthDbUrl(cfg)) == Some(DbUrlParts("", None, cfg.dbUser, before,
      after + "@" + (cfg.dbHost + ":" + EffectivePort(cfg.dbPort)) + "/" + cfg.dbName))
  {
    var hostPort := cfg.dbHost + ":" + EffectivePort(cfg.dbPort);
    var authority := cfg.dbUser + ":" + before;
    var rest := after + "@" + hostPort + "/" + cfg.dbName;
    assert HealthDbUrl(cfg) == Scheme + (cfg.dbUser + ":" + cfg.dbPassword + "@" + hostPort) + "/" + cfg.dbName;
    assert HealthDbUrl(cfg) == Scheme + authority + "/" + rest;
    SchemeRoundTrip(authority, rest);
    HostPortRoundTrip(cfg.dbUser, before, rest);
  }

  /** What `SetupHandlers` hands to the health checker's endpoint registration. */
  datatype HealthRegistration = HealthRegistration(httpPort: int, dbUrl: string, brokerUrl: string)

  /** The handlers the mux serves. */
  datatype Route = MetricsHandler | IngestRoute(server: IngestGatewayServer)

  datatype HandlerSetup = HandlerSetup(health: HealthRegistration, routes: map<string, Route>)

  /** The health endpoints get the derived database URL and the server's broker
      URL; /metrics serves the metrics handler and /ingest this server's ingest handler. */
  function SetupHandlers(s: IngestGatewayServer, cfg: GatewayBaseConfig): (setup: HandlerSetup)
    ensures setup.health == HealthRegistration(cfg.httpPort, HealthDbUrl(cfg), s.brokerUrl)
    ensures setup.routes.Keys == {"/metrics", IngestPath}
    ensures setup.routes["/metrics"] == MetricsHandler
    ensures setup.routes[IngestPath] == IngestRoute(s)
  {
    HandlerSetup(
      HealthRegistration(cfg.httpPort, HealthDbUrl(cfg), s.brokerUrl),
      map["/metrics" := MetricsHandler, IngestPath := IngestRoute(s)])
  }
}
