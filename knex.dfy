/** The parts of a Knex configuration object this project builds. */
module Knex {
  import opened Js

  /** The connection's `ssl` entry: absent, `false`, or `{rejectUnauthorized: false}`. */
  datatype Ssl = SslUnset | SslOff | SslNoVerify

  /** A connection string, or the discrete connection parameters. */
  datatype Connection =
    | ConnectionString(url: string)
    | ConnectionParams(host: string, port: Number, user: string, password: string, database: string, ssl: Ssl)

  datatype Pool = Pool(min: Number, max: Number)

  datatype Migrations = Migrations(directory: string, extension: string, tableName: string)

  datatype Seeds = Seeds(directory: string, extension: string)

  datatype Config = Config(
    client: string,
    connection: Connection,
    pool: Pool,
    migrations: Migrations,
    seeds: Seeds,
    debug: bool)

  /** The migrations entry every configuration here uses. */
  const MIGRATIONS := Migrations("./src/database/migrations", "ts", "knex_migrations")

  /** The seeds entry every configuration here uses. */
  const SEEDS := Seeds("./src/database/seeds", "ts")

  /** `ssl === 'true' ? {rejectUnauthorized: false} : false` */
  function SslFrom(text: string): (ssl: Ssl)
    ensures ssl == SslNoVerify <==> text == "true"
    ensures ssl != SslUnset
  {
    if text == "true" then SslNoVerify else SslOff
  }
}
