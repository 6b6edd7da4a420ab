/**
  knexfile: the `development` and `production` configurations the Knex
  command line reads, each built straight from the environment.
 */
module Knexfile {
  import opened Js
  import opened Knex
  import opened Configuration
  import opened DatabaseConfig
  import Numbers

  /**
    `process.env.DATABASE_URL || {host, port, user, password, database[, ssl]}`:
    a non-empty URL as it is, otherwise the parameters, which are the ones
    the application's settings record holds.
   */
  function ConnectionFrom(env: Env, ssl: Ssl): (c: Connection)
    ensures c.ConnectionString? <==> !Blank(env, "DATABASE_URL")
    ensures c.ConnectionString? ==> c.url != "" && Some(c.url) == Load(env).database.url
    ensures c.ConnectionParams? ==>
      var db := Load(env).database;
      && c.host == db.host && c.port == db.port && c.user == db.user
      && c.password == db.password && c.database == db.name && c.ssl == ssl
  {
    if !Blank(env, "DATABASE_URL") then ConnectionString(env["DATABASE_URL"])
    else ConnectionParams(EnvOr(env, "DATABASE_HOST", "localhost"), EnvInt(env, "DATABASE_PORT", "5432"),
                          EnvOr(env, "DATABASE_USER", "postgres"), EnvOr(env, "DATABASE_PASSWORD", ""),
                          EnvOr(env, "DATABASE_NAME", "karnok_db"), ssl)
  }

  /** `parseInt(DATABASE_POOL_MIN || '2')` and `parseInt(DATABASE_POOL_MAX || '10')`, with no further fallback. */
  function PoolFrom(env: Env): (p: Pool)
    ensures p.min == Load(env).database.poolMin && p.max == Load(env).database.poolMax
  {
    Pool(EnvInt(env, "DATABASE_POOL_MIN", "2"), EnvInt(env, "DATABASE_POOL_MAX", "10"))
  }

  /** The `development` entry: no ssl key, debug output on. */
  function Development(env: Env): (c: Config)
    ensures c.client == "pg" && c.migrations == MIGRATIONS && c.seeds == SEEDS && c.debug
    ensures c.connection.ConnectionParams? ==> c.connection.ssl == SslUnset
  {
    Config("pg", ConnectionFrom(env, SslUnset), PoolFrom(env), MIGRATIONS, SEEDS, true)
  }

  /** The `production` entry: ssl decided by DATABASE_SSL, debug output off. */
  function Production(env: Env): (c: Config)
    ensures c.client == "pg" && c.migrations == MIGRATIONS && c.seeds == SEEDS && !c.debug
    ensures c.connection.ConnectionParams? ==>
      (c.connection.ssl == SslNoVerify <==> "DATABASE_SSL" in env && env["DATABASE_SSL"] == "true")
  {
    Config("pg", ConnectionFrom(env, SslFrom(StrOr(Lookup(env, "DATABASE_SSL"), ""))), PoolFrom(env),
           MIGRATIONS, SEEDS, false)
  }

  /** The two entries differ only in the ssl key and the debug flag. */
  lemma {:induction false} EnvironmentsShareTheRest(env: Env)
    ensures Development(env).pool == Production(env).pool
    ensures Development(env).connection.ConnectionString? <==> Production(env).connection.ConnectionString?
    ensures Development(env).connection.ConnectionString? ==> Development(env).connection == Production(env).connection
    ensures Development(env).connection.ConnectionParams? ==>
      Development(env).connection == Production(env).connection.(ssl := SslUnset)
  {
  }

  /**
    The application's own configuration opens the same connection as the
    `production` entry, for every environment.
   */
  lemma {:induction false} ProductionMatchesApplication(env: Env)
    ensures CreateKnexConfig(Load(env)).connection == Production(env).connection
  {
    var s := Load(env);
    assert Filled(s.database.url) <==> !Blank(env, "DATABASE_URL");
    assert s.database.ssl == "true" <==> StrOr(Lookup(env, "DATABASE_SSL"), "") == "true";
  }

  /**
    The pool bounds agree with the application's except where the reading
    is 0 or NaN: a DATABASE_POOL_MIN of '0' gives the command line a pool
    minimum of 0 and the application one of 2.
   */
  lemma {:induction false} PoolDiffersOnZero(env: Env)
    requires "DATABASE_POOL_MIN" in env && env["DATABASE_POOL_MIN"] == "0"
    ensures Production(env).pool.min == Int(0)
    ensures CreateKnexConfig(Load(env)).pool.min == Int(2)
  {
    assert Numbers.AllDigits("0");
    assert Numbers.DigitsValue("0") == 0;
  }

  /** Away from 0 and NaN the pool bounds agree with the application's. */
  lemma {:induction false} PoolAgreesOtherwise(env: Env)
    requires var p := PoolFrom(env); p.min.Int? && p.min.value != 0 && p.max.Int? && p.max.value != 0
    ensures CreateKnexConfig(Load(env)).pool == Production(env).pool
  {
  }

  /** debug in the application's configuration matches the entry named by NODE_ENV. */
  lemma {:induction false} DebugMatchesEntry(env: Env)
    ensures "NODE_ENV" in env && env["NODE_ENV"] == "production" ==>
      CreateKnexConfig(Load(env)).debug == Production(env).debug
    ensures Blank(env, "NODE_ENV") || env["NODE_ENV"] == "development" ==>
      CreateKnexConfig(Load(env)).debug == Development(env).debug
  {
  }
}
