/**
  `createKnexConfig`: the Knex configuration the application opens its
  database with, read from the settings record.
 */
module DatabaseConfig {
  import opened Js
  import opened Knex
  import opened Configuration
  import Numbers

  /**
    A non-empty URL becomes the connection string; otherwise the discrete
    parameters are passed on, with ssl switched on by the exact text
    'true'. The pool bounds fall back to 2 and 10 when 0 or NaN, and debug
    output is on exactly in development.
   */
  function CreateKnexConfig(settings: Settings): (c: Config)
    ensures c.client == "pg" && c.migrations == MIGRATIONS && c.seeds == SEEDS
    ensures Filled(settings.database.url) ==> c.connection == ConnectionString(settings.database.url.value)
    ensures !Filled(settings.database.url) ==>
      var d := settings.database;
      c.connection == ConnectionParams(d.host, d.port, d.user, d.password, d.name, SslFrom(d.ssl))
    ensures settings.database.poolMin.Int? && settings.database.poolMin.value != 0 ==> c.pool.min == settings.database.poolMin
    ensures settings.database.poolMin in {NaN, Int(0)} ==> c.pool.min == Int(2)
    ensures settings.database.poolMax.Int? && settings.database.poolMax.value != 0 ==> c.pool.max == settings.database.poolMax
    ensures settings.database.poolMax in {NaN, Int(0)} ==> c.pool.max == Int(10)
    ensures c.debug <==> settings.nodeEnv == "" || settings.nodeEnv == "development"
  {
    var nodeEnv := if settings.nodeEnv != "" then settings.nodeEnv else "development";
    var d := settings.database;
    var pool := Pool(Int(NumberOr(d.poolMin, 2)), Int(NumberOr(d.poolMax, 10)));
    var connection :=
      if Filled(d.url) then ConnectionString(d.url.value)
      else ConnectionParams(d.host, d.port, d.user, d.password, d.name, SslFrom(d.ssl));
    Config("pg", connection, pool, MIGRATIONS, SEEDS, nodeEnv == "development")
  }

  /** The pool bounds the application opens are never 0 and never NaN. */
  lemma {:induction false} PoolBoundsUsable(settings: Settings)
    ensures var p := CreateKnexConfig(settings).pool;
      p.min.Int? && p.min.value != 0 && p.max.Int? && p.max.value != 0
  {
  }

  /**
    Read from the environment: the URL wins when DATABASE_URL is non-empty;
    ssl is on only for DATABASE_SSL = 'true'; debug is on when NODE_ENV is
    unset, empty or 'development'; DATABASE_POOL_MIN = '0' opens a pool of
    at least 2.
   */
  lemma {:induction false} FromEnvironment(env: Env)
    ensures var c := CreateKnexConfig(Load(env));
      && (c.connection.ConnectionString? <==> "DATABASE_URL" in env && env["DATABASE_URL"] != "")
      && (c.connection.ConnectionParams? ==> (c.connection.ssl == SslNoVerify <==> "DATABASE_SSL" in env && env["DATABASE_SSL"] == "true"))
      && (c.debug <==> Blank(env, "NODE_ENV") || env["NODE_ENV"] == "development")
    ensures "DATABASE_POOL_MIN" in env && env["DATABASE_POOL_MIN"] == "0" ==>
      CreateKnexConfig(Load(env)).pool.min == Int(2)
  {
    var s := Load(env);
    assert s.database.ssl == "true" <==> "DATABASE_SSL" in env && env["DATABASE_SSL"] == "true";
    if "DATABASE_POOL_MIN" in env && env["DATABASE_POOL_MIN"] == "0" {
      assert Numbers.AllDigits("0");
      assert Numbers.DigitsValue("0") == 0;
    }
  }
}
