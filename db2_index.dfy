/** CreateIndexGeneratorDB2: index creation on DB2 10.5 and later, excluding null keys. */
module Db2Index {
  import opened Wrappers
  import opened Versions
  import opened Host

  const ExcludeNullKeysSuffix := " EXCLUDE NULL KEYS"

  /** The range the constructor builds: "10.5" as an inclusive lower bound, no upper bound. */
  const SupportedRange := VersionRange(true, Some(Version(10, 5, 0)), None, false)

  /** supports, as a decision over the configured range and the database. */
  predicate SupportsDatabase(range: VersionRange, db: Database) {
    db.dialect == DB2
    && (!db.connected
        || (db.version.Reported? && range.Includes(Version(db.version.major, db.version.minor, 0))))
  }

  class CreateIndexGeneratorDB2 {
    var supportedVersion: VersionRange

    ghost predicate Valid()
      reads this
    {
      supportedVersion == SupportedRange
    }

    constructor()
      ensures Valid()
    {
      ParseMajorMinor("10.5", 10, 5);
      var parsed := ParseVersion("10.5");
      supportedVersion := VersionRange(true, Some(parsed.value), None, false);
    }

    /** The flag starts false and is set only on the DB2 branches; a version-read error leaves it false. */
    method Supports(db: Database) returns (supports: bool)
      ensures supports == SupportsDatabase(supportedVersion, db)
      ensures Valid() ==> (supports <==> db.dialect == DB2
                                         && (!db.connected || (db.version.Reported? && AtLeastTenFive(db.version.major, db.version.minor))))
    {
      supports := false;
      if db.dialect == DB2 {
        if !db.connected {
          supports := true;
        } else {
          match db.version
          case Reported(major, minor) =>
            supports := supportedVersion.Includes(Version(major, minor, 0));
            if Valid() {
              SupportedRangeThreshold(major, minor);
            }
          case QueryFailed =>
        }
      }
    }
  }

  predicate AtLeastTenFive(major: nat, minor: nat) {
    major > 10 || (major == 10 && minor >= 5)
  }

  /** The constructor's range admits exactly the versions from 10.5 on; the patch never matters. */
  lemma SupportedRangeThreshold(major: nat, minor: nat)
    ensures SupportedRange.Includes(Version(major, minor, 0)) <==> AtLeastTenFive(major, minor)
  {
    AtLeast(Version(10, 5, 0), Version(major, minor, 0));
  }

  lemma NotSupportedOffDb2(range: VersionRange, db: Database)
    requires db.dialect != DB2
    ensures !SupportsDatabase(range, db)
  {
  }

  lemma SupportedOffline(range: VersionRange, db: Database)
    requires db.dialect == DB2 && !db.connected
    ensures SupportsDatabase(range, db)
  {
  }

  lemma NotSupportedOnReadError(range: VersionRange, db: Database)
    requires db.connected && db.version.QueryFailed?
    ensures !SupportsDatabase(range, db)
  {
  }

  /** The unit-test versions: 10.1 is refused and 10.5 accepted. */
  lemma TestVersions(db: Database)
    requires db.dialect == DB2 && db.connected
    ensures db.version == Reported(10, 1) ==> !SupportsDatabase(SupportedRange, db)
    ensures db.version == Reported(10, 5) ==> SupportsDatabase(SupportedRange, db)
  {
    SupportedRangeThreshold(10, 1);
    SupportedRangeThreshold(10, 5);
  }

  /**
   * generateSql over the base generator's statements: none stay none; otherwise a single
   * statement, the first one with the suffix appended, and the rest dropped.
   */
  function ExcludeNullKeys(base: seq<string>): (r: seq<string>)
    ensures r == [] <==> base == []
    ensures |r| <= 1
    ensures r != [] ==> |r[0]| == |base[0]| + |ExcludeNullKeysSuffix|
                        && r[0][..|base[0]|] == base[0] && r[0][|base[0]|..] == ExcludeNullKeysSuffix
  {
    if |base| == 0 then base else [base[0] + ExcludeNullKeysSuffix]
  }

  /** Only the first base statement matters. */
  lemma ExcludeNullKeysIgnoresTail(first: string, rest: seq<string>, rest': seq<string>)
    ensures ExcludeNullKeys([first] + rest) == ExcludeNullKeys([first] + rest')
  {
  }
}
