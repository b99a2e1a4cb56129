/** DatabaseVersionPrecondition: run a change set only when the database version lies in a range. */
module VersionPrecondition {
  import opened Wrappers
  import opened Versions
  import opened Host

  /** The four configuration fields of the precondition. */
  datatype VersionSettings = VersionSettings(minIncluded: bool, maxIncluded: bool,
                                             minVersion: Option<string>, maxVersion: Option<string>)

  const MissingBoundError := "Either minVersion or maxVersion must be set"

  class DatabaseVersionPrecondition {
    var minIncluded: bool
    var maxIncluded: bool
    var minVersion: Option<string>
    var maxVersion: Option<string>

    function Settings(): VersionSettings
      reads this
    {
      VersionSettings(minIncluded, maxIncluded, minVersion, maxVersion)
    }

    /** Java field defaults: both flags false, both bounds null. */
    constructor()
      ensures Settings() == VersionSettings(false, false, None, None)
    {
      minIncluded := false;
      maxIncluded := false;
      minVersion := None;
      maxVersion := None;
    }

    method SetMaxVersion(v: Option<string>)
      modifies this
      ensures Settings() == old(Settings()).(maxVersion := v)
    {
      maxVersion := v;
    }

    method SetMinVersion(v: Option<string>)
      modifies this
      ensures Settings() == old(Settings()).(minVersion := v)
    {
      minVersion := v;
    }

    method SetMaxIncluded(b: bool)
      modifies this
      ensures Settings() == old(Settings()).(maxIncluded := b)
    {
      maxIncluded := b;
    }

    method SetMinIncluded(b: bool)
      modifies this
      ensures Settings() == old(Settings()).(minIncluded := b)
    {
      minIncluded := b;
    }

    /** validate: one error exactly when neither bound is configured. */
    method Validate() returns (errors: seq<string>)
      ensures errors == [] || errors == [MissingBoundError]
      ensures errors != [] <==> minVersion.None? && maxVersion.None?
    {
      errors := [];
      if minVersion.None? && maxVersion.None? {
        errors := errors + [MissingBoundError];
      }
    }

    method Check(db: Database) returns (v: Verdict)
      ensures v == CheckVersion(Settings(), db)
    {
      v := CheckVersion(Settings(), db);
    }
  }

  /** getDatabaseVersion: (major, minor, 0), or None when the query throws. */
  function DatabaseVersion(db: Database): (r: Option<Version>)
    ensures r.Some? <==> db.version.Reported?
    ensures r.Some? ==> r.value.major == db.version.major && r.value.minor == db.version.minor
    ensures r.Some? ==> r.value.patch == 0
  {
    match db.version
    case Reported(major, minor) => Some(Version(major, minor, 0))
    case QueryFailed => None
  }

  /** A configured bound: null reads as an absent bound; malformed text gives Failure. */
  function Bound(text: Option<string>): (r: Result<Option<Version>, string>)
    ensures text.None? ==> r == Success(None)
    ensures text.Some? ==> (r.Failure? <==> ParseVersion(text.value).None?)
    ensures text.Some? && r.Success? ==> r.value == ParseVersion(text.value)
  {
    match text
    case None => Success(None)
    case Some(t) =>
      match ParseVersion(t)
      case Some(v) => Success(Some(v))
      case None => Failure(t)
  }

  /** The range built by check: both inclusion flags as configured, a bound absent exactly when unset. */
  function ExpectedRange(s: VersionSettings): (r: Result<VersionRange, string>)
    ensures r.Success? <==> Bound(s.minVersion).Success? && Bound(s.maxVersion).Success?
    ensures r.Success? ==> r.value.minIncluded == s.minIncluded && r.value.maxIncluded == s.maxIncluded
    ensures r.Success? ==> (r.value.min.None? <==> s.minVersion.None?)
    ensures r.Success? ==> (r.value.max.None? <==> s.maxVersion.None?)
    ensures r.Success? ==> Bound(s.minVersion) == Success(r.value.min) && Bound(s.maxVersion) == Success(r.value.max)
  {
    match (Bound(s.minVersion), Bound(s.maxVersion))
    case (Success(lo), Success(hi)) => Success(VersionRange(s.minIncluded, lo, hi, s.maxIncluded))
    case (Failure(t), _) => Failure(t)
    case (_, Failure(t)) => Failure(t)
  }

  /**
   * The failure message, "Expected DB version in {0} but found <product> version ''{1}''" after
   * message formatting: the doubled quotes render as one quote each.
   */
  function FailureMessage(range: VersionRange, productName: string, v: Version): (m: string)
    ensures |m| == 45 + |RangeToString(range)| + |productName| + |VersionToString(v)|
    ensures m[..23] == "Expected DB version in "
    ensures m[23..23 + |RangeToString(range)|] == RangeToString(range)
    ensures m[23 + |RangeToString(range)|..34 + |RangeToString(range)|] == " but found "
    ensures m[34 + |RangeToString(range)|..34 + |RangeToString(range)| + |productName|] == productName
    ensures m[34 + |RangeToString(range)| + |productName|..43 + |RangeToString(range)| + |productName|] == " version "
    ensures m[|m| - |VersionToString(v)| - 2..] == "'" + VersionToString(v) + "'"
  {
    var head := "Expected DB version in " + RangeToString(range);
    var tail := "'" + VersionToString(v) + "'";
    var found := head + " but found ";
    var named := found + productName;
    assert head[..23] == "Expected DB version in ";
    assert named[..|found|] == found && named[|found|..] == productName;
    named + " version " + tail
  }

  /** check: the database version is read first; a read error wins over everything else. */
  function CheckVersion(s: VersionSettings, db: Database): (v: Verdict)
    ensures v.Errored? <==> db.version.QueryFailed?
    ensures v.Aborted? <==> db.version.Reported? && ExpectedRange(s).Failure?
    ensures v.Passed? <==> db.version.Reported? && ExpectedRange(s).Success?
                           && ExpectedRange(s).value.Includes(DatabaseVersion(db).value)
    ensures v.Failed? ==> v == Failed(FailureMessage(ExpectedRange(s).value, db.productName, DatabaseVersion(db).value))
  {
    match DatabaseVersion(db)
    case None => Errored
    case Some(live) =>
      match ExpectedRange(s)
      case Failure(_) => Aborted
      case Success(range) =>
        if range.Includes(live) then Passed else Failed(FailureMessage(range, db.productName, live))
  }

  /** A range fails the check exactly for the live versions it excludes. */
  lemma FailsIffExcluded(s: VersionSettings, db: Database, range: VersionRange)
    requires ExpectedRange(s) == Success(range) && db.version.Reported?
    ensures CheckVersion(s, db).Failed? <==> !range.Includes(Version(db.version.major, db.version.minor, 0))
  {
  }

  /** A configured text that parses is a present bound. */
  lemma BoundOfText(text: string, v: Version)
    requires ParseVersion(text) == Some(v)
    ensures Bound(Some(text)) == Success(Some(v))
  {
  }

  /** Two well-formed bounds make the range check builds. */
  lemma RangeOfBounds(s: VersionSettings, lo: Option<Version>, hi: Option<Version>)
    requires Bound(s.minVersion) == Success(lo) && Bound(s.maxVersion) == Success(hi)
    ensures ExpectedRange(s) == Success(VersionRange(s.minIncluded, lo, hi, s.maxIncluded))
  {
  }

  /** The version texts of the unit tests, parsed one at a time. */
  lemma ParseTen1()
    ensures ParseVersion("10.1") == Some(Version(10, 1, 0))
  {
    ParseMajorMinor("10.1", 10, 1);
  }

  lemma ParseEleven()
    ensures ParseVersion("11") == Some(Version(11, 0, 0))
  {
    ParseMajor("11", 11);
  }

  lemma ParseEleven2()
    ensures ParseVersion("11.2") == Some(Version(11, 2, 0))
  {
    ParseMajorMinor("11.2", 11, 2);
  }

  lemma ParseTwelve()
    ensures ParseVersion("12") == Some(Version(12, 0, 0))
  {
    ParseMajor("12", 12);
  }

  // Scenarios from the unit tests, live version 11.2 unless stated.
  // The database is a parameter whose version alone is fixed: the product name may be anything.

  lemma MaxTwelveInclusivePasses(db: Database)
    requires db.version == Reported(11, 2)
    ensures CheckVersion(VersionSettings(false, true, None, Some("12")), db) == Passed
  {
    var s := VersionSettings(false, true, None, Some("12"));
    ParseTwelve();
    BoundOfText("12", Version(12, 0, 0));
    RangeOfBounds(s, None, Some(Version(12, 0, 0)));
  }

  lemma MinTenOnePasses(db: Database)
    requires db.version == Reported(11, 2)
    ensures CheckVersion(VersionSettings(false, false, Some("10.1"), None), db) == Passed
  {
    var s := VersionSettings(false, false, Some("10.1"), None);
    ParseTen1();
    BoundOfText("10.1", Version(10, 1, 0));
    RangeOfBounds(s, Some(Version(10, 1, 0)), None);
  }

  lemma HalfOpenElevenTwelvePasses(db: Database)
    requires db.version == Reported(11, 2)
    ensures CheckVersion(VersionSettings(true, false, Some("11"), Some("12")), db) == Passed
  {
    var s := VersionSettings(true, false, Some("11"), Some("12"));
    ParseEleven();
    ParseTwelve();
    BoundOfText("11", Version(11, 0, 0));
    BoundOfText("12", Version(12, 0, 0));
    RangeOfBounds(s, Some(Version(11, 0, 0)), Some(Version(12, 0, 0)));
  }

  lemma MaxElevenTwoInclusiveFailsOnTwelveOne(db: Database)
    requires db.version == Reported(12, 1)
    ensures CheckVersion(VersionSettings(false, true, None, Some("11.2")), db)
            == Failed(FailureMessage(VersionRange(false, None, Some(Version(11, 2, 0)), true),
                                     db.productName, Version(12, 1, 0)))
  {
    var s := VersionSettings(false, true, None, Some("11.2"));
    ParseEleven2();
    BoundOfText("11.2", Version(11, 2, 0));
    RangeOfBounds(s, None, Some(Version(11, 2, 0)));
  }
}
