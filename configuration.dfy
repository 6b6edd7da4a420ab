/**
  The configuration factory: one settings record derived from the process
  environment, each entry with its `||` default.
 */
module Configuration {
  import opened Js
  import opened Text
  import opened Numbers

  /** `process.env.PORT || 3000`: the raw text when set, else the number 3000. */
  datatype Port = PortText(text: string) | PortNumber(n: int)

  datatype DatabaseSettings = DatabaseSettings(
    url: Option<string>,
    host: string,
    port: Number,
    user: string,
    password: string,
    name: string,
    poolMin: Number,
    poolMax: Number,
    ssl: string)

  datatype Settings = Settings(
    port: Port,
    nodeEnv: string,
    database: DatabaseSettings,
    jwtSecret: Option<string>,
    jwtExpiresIn: string,
    apiPrefix: string,
    apiVersion: string,
    corsOrigin: seq<string>,
    corsCredentials: bool,
    helmetContentSecurityPolicy: bool,
    helmetCrossOriginEmbedderPolicy: bool,
    logDir: string,
    logLevel: string)

  /** `process.env[name] || d` */
  function EnvOr(env: Env, name: string, d: string): (v: string)
    ensures Blank(env, name) ==> v == d
    ensures !Blank(env, name) ==> v == env[name]
  {
    StrOr(Lookup(env, name), d)
  }

  /** `parseInt(process.env[name] || d, 10)` */
  function EnvInt(env: Env, name: string, d: string): (n: Number)
    ensures Blank(env, name) ==> n == ParseInt(d)
    ensures !Blank(env, name) ==> n == ParseInt(env[name])
  {
    ParseInt(EnvOr(env, name, d))
  }

  /** `CORS_ORIGIN ? CORS_ORIGIN.split(',') : ['http://localhost:3000']`; the pieces are not trimmed. */
  function CorsOrigin(env: Env): (origins: seq<string>)
    ensures Blank(env, "CORS_ORIGIN") ==> origins == ["http://localhost:3000"]
    ensures !Blank(env, "CORS_ORIGIN") ==> origins == Split(env["CORS_ORIGIN"], ',')
    ensures |origins| >= 1
  {
    if Blank(env, "CORS_ORIGIN") then ["http://localhost:3000"] else Split(env["CORS_ORIGIN"], ',')
  }

  /**
    The settings record for an environment. Every setting with a default,
    except the database password (whose default is ''), is non-empty; the
    database URL and the JWT secret have none and are passed
    through; both helmet switches follow NODE_ENV together, and are on only
    when the node environment reads 'production'.
   */
  function Load(env: Env): (s: Settings)
    ensures s.port.PortText? ==> s.port.text != ""
    ensures s.nodeEnv != "" && s.jwtExpiresIn != "" && s.apiPrefix != "" && s.apiVersion != ""
    ensures s.logDir != "" && s.logLevel != ""
    ensures s.database.host != "" && s.database.user != "" && s.database.name != "" && s.database.ssl != ""
    ensures s.database.url == Lookup(env, "DATABASE_URL") && s.jwtSecret == Lookup(env, "JWT_SECRET")
    ensures s.corsOrigin != []
    ensures s.helmetContentSecurityPolicy == s.helmetCrossOriginEmbedderPolicy
    ensures s.helmetContentSecurityPolicy ==> s.nodeEnv == "production"
  {
    Settings(
      if Blank(env, "PORT") then PortNumber(3000) else PortText(env["PORT"]),
      EnvOr(env, "NODE_ENV", "development"),
      DatabaseSettings(
        Lookup(env, "DATABASE_URL"),
        EnvOr(env, "DATABASE_HOST", "localhost"),
        EnvInt(env, "DATABASE_PORT", "5432"),
        EnvOr(env, "DATABASE_USER", "postgres"),
        EnvOr(env, "DATABASE_PASSWORD", ""),
        EnvOr(env, "DATABASE_NAME", "karnok_db"),
        EnvInt(env, "DATABASE_POOL_MIN", "2"),
        EnvInt(env, "DATABASE_POOL_MAX", "10"),
        EnvOr(env, "DATABASE_SSL", "false")),
      Lookup(env, "JWT_SECRET"),
      EnvOr(env, "JWT_EXPIRES_IN", "1d"),
      EnvOr(env, "API_PREFIX", "api"),
      EnvOr(env, "API_VERSION", "v1"),
      CorsOrigin(env),
      Lookup(env, "CORS_CREDENTIALS") != Some("false"),
      Lookup(env, "NODE_ENV") == Some("production"),
      Lookup(env, "NODE_ENV") == Some("production"),
      EnvOr(env, "LOG_DIR", "logs"),
      EnvOr(env, "LOG_LEVEL", "info"))
  }

  /** The numeric defaults read as 5432, 2 and 10. */
  lemma DefaultNumbersParse()
    ensures ParseInt("5432") == Int(5432) && ParseInt("2") == Int(2) && ParseInt("10") == Int(10)
  {
    assert AllDigits("5432") && AllDigits("2") && AllDigits("10");
    assert "54"[..1] == "5" && "543"[..2] == "54" && "5432"[..3] == "543" && "10"[..1] == "1";
    assert DigitsValue("5") == 5;
    assert DigitsValue("54") == 54;
    assert DigitsValue("543") == 543;
    assert DigitsValue("5432") == 5432;
    assert DigitsValue("1") == 1;
    assert DigitsValue("10") == 10;
    assert DigitsValue("2") == 2;
  }

  /**
    With every variable unset or empty, each setting takes its documented
    default; `||` treats '' as unset.
   */
  lemma {:induction false} BlankEnvironmentDefaults(env: Env)
    requires forall name :: name in env ==> env[name] == ""
    ensures Load(env).port == PortNumber(3000) && Load(env).nodeEnv == "development"
    ensures Load(env).jwtExpiresIn == "1d" && Load(env).apiPrefix == "api" && Load(env).apiVersion == "v1"
    ensures Load(env).corsOrigin == ["http://localhost:3000"] && Load(env).corsCredentials
    ensures !Load(env).helmetContentSecurityPolicy && !Load(env).helmetCrossOriginEmbedderPolicy
    ensures Load(env).logDir == "logs" && Load(env).logLevel == "info"
    ensures Load(env).jwtSecret == Lookup(env, "JWT_SECRET")
  {
    assert Blank(env, "PORT") && Blank(env, "NODE_ENV") && Blank(env, "CORS_ORIGIN");
  }

  /**
    The database defaults for variables unset or empty. The URL has no
    default: undefined when unset, '' when set empty.
   */
  lemma {:induction false} BlankDatabaseDefaults(env: Env)
    requires forall name :: name in env ==> env[name] == ""
    ensures var d := Load(env).database;
      && d.host == "localhost" && d.port == Int(5432)
      && d.user == "postgres" && d.password == "" && d.name == "karnok_db"
      && d.poolMin == Int(2) && d.poolMax == Int(10) && d.ssl == "false"
      && d.url == Lookup(env, "DATABASE_URL")
      && (d.url.Some? ==> d.url.value == "")
  {
    DefaultNumbersParse();
    assert Blank(env, "DATABASE_PORT") && Blank(env, "DATABASE_POOL_MIN") && Blank(env, "DATABASE_POOL_MAX");
  }

  /** A non-empty variable is taken as it is: no trimming, no case change. */
  lemma SetValuesKept(env: Env)
    ensures !Blank(env, "PORT") ==> Load(env).port == PortText(env["PORT"])
    ensures !Blank(env, "NODE_ENV") ==> Load(env).nodeEnv == env["NODE_ENV"]
    ensures !Blank(env, "DATABASE_HOST") ==> Load(env).database.host == env["DATABASE_HOST"]
    ensures !Blank(env, "DATABASE_USER") ==> Load(env).database.user == env["DATABASE_USER"]
    ensures !Blank(env, "DATABASE_PASSWORD") ==> Load(env).database.password == env["DATABASE_PASSWORD"]
    ensures !Blank(env, "DATABASE_NAME") ==> Load(env).database.name == env["DATABASE_NAME"]
    ensures !Blank(env, "DATABASE_SSL") ==> Load(env).database.ssl == env["DATABASE_SSL"]
    ensures !Blank(env, "JWT_EXPIRES_IN") ==> Load(env).jwtExpiresIn == env["JWT_EXPIRES_IN"]
    ensures !Blank(env, "API_PREFIX") ==> Load(env).apiPrefix == env["API_PREFIX"]
    ensures !Blank(env, "API_VERSION") ==> Load(env).apiVersion == env["API_VERSION"]
    ensures !Blank(env, "LOG_DIR") ==> Load(env).logDir == env["LOG_DIR"]
    ensures !Blank(env, "LOG_LEVEL") ==> Load(env).logLevel == env["LOG_LEVEL"]
    ensures "DATABASE_URL" in env ==> Load(env).database.url == Some(env["DATABASE_URL"])
    ensures "JWT_SECRET" in env ==> Load(env).jwtSecret == Some(env["JWT_SECRET"])
  {
  }

  /**
    CORS origins: the pieces contain no comma and join back, with ',', to
    the variable's text exactly.
   */
  lemma CorsOriginRoundTrip(env: Env)
    requires !Blank(env, "CORS_ORIGIN")
    ensures Join(Load(env).corsOrigin, ",") == env["CORS_ORIGIN"]
    ensures forall i :: 0 <= i < |Load(env).corsOrigin| ==> ',' !in Load(env).corsOrigin[i]
  {
    SplitJoin(env["CORS_ORIGIN"], ',');
  }

  /** Credentials are off only for the exact text 'false'. */
  lemma CredentialsOnlyOffForFalse(env: Env)
    ensures !Load(env).corsCredentials <==> "CORS_CREDENTIALS" in env && env["CORS_CREDENTIALS"] == "false"
  {
  }

  /**
    The helmet flags test the raw variable: an unset NODE_ENV reads as
    'development' in `nodeEnv` but never turns the flags on.
   */
  lemma HelmetOnlyInProduction(env: Env)
    ensures Load(env).helmetContentSecurityPolicy <==> "NODE_ENV" in env && env["NODE_ENV"] == "production"
    ensures Load(env).helmetCrossOriginEmbedderPolicy == Load(env).helmetContentSecurityPolicy
    ensures Load(env).helmetContentSecurityPolicy <==> Load(env).nodeEnv == "production"
  {
  }

  /**
    The numeric settings are base-10 readings of the variable; a '0' is
    kept as 0 here (only the Knex configuration replaces it).
   */
  lemma {:induction false} NumericSettingsParsed(env: Env, name: string)
    requires name in {"DATABASE_PORT", "DATABASE_POOL_MIN", "DATABASE_POOL_MAX"}
    requires name in env && env[name] != "" && AllDigits(env[name])
    ensures name == "DATABASE_PORT" ==> Load(env).database.port == Int(DigitsValue(env[name]))
    ensures name == "DATABASE_POOL_MIN" ==> Load(env).database.poolMin == Int(DigitsValue(env[name]))
    ensures name == "DATABASE_POOL_MAX" ==> Load(env).database.poolMax == Int(DigitsValue(env[name]))
  {
  }
}
