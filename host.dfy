/**
 * What the extensions see of the migration engine: the kind of database connected to, what it
 * reports about itself, and the three outcomes of a precondition.
 */
module Host {

  /** The database classes the extensions test with instanceof; every other class is OtherDialect. */
  datatype Dialect = Oracle | Postgres | DB2 | OtherDialect

  /** getDatabaseMajorVersion / getDatabaseMinorVersion: either both values, or a DatabaseException. */
  datatype VersionQuery = Reported(major: nat, minor: nat) | QueryFailed

  /** connected is false when getConnection() is null (offline generation). */
  datatype Database = Database(dialect: Dialect, productName: string, connected: bool, version: VersionQuery)

  /**
   * The outcome of Precondition.check: it returns normally (Passed), throws a
   * PreconditionFailedException carrying message (Failed), throws a PreconditionErrorException
   * wrapping a database error (Errored), or lets some other runtime exception escape (Aborted).
   */
  datatype Verdict = Passed | Failed(message: string) | Errored | Aborted
}
