/**
 * ResizeDataTypeChange: a column type change that only widens the type's parameters, skipped on
 * Oracle for LOB types, which have no size to change.
 */
module ResizeDataType {
  import opened Wrappers
  import opened JavaString
  import opened StringUtils
  import opened Host

  const MismatchError := "oldDataType must match newDataType"

  /** The error that escapes validate when either type is null: trim is called on it. */
  const NullTypeError := "NullPointerException"

  /** t is BLOB, CLOB or NCLOB, ignoring case. */
  predicate IsLobName(t: string) {
    EqualsIgnoreCase("BLOB", t) || EqualsIgnoreCase("CLOB", t) || EqualsIgnoreCase("NCLOB", t)
  }

  /** The LOB test of generateStatements: on a null type removeParam gives null, which is no LOB. */
  predicate IsLobType(newDataType: Option<string>) {
    var t := RemoveParam(newDataType);
    t.Some? && IsLobName(t.value)
  }

  /**
   * generateStatements: no statement on Oracle for a LOB target type, otherwise exactly the
   * statements of the inherited type change (base).
   */
  function GenerateStatements(dialect: Dialect, newDataType: Option<string>, base: seq<string>): (r: seq<string>)
    ensures dialect != Oracle ==> r == base
    ensures dialect == Oracle && IsLobType(newDataType) ==> r == []
    ensures !IsLobType(newDataType) ==> r == base
  {
    if dialect == Oracle && IsLobType(newDataType) then [] else base
  }

  /** The comparison of validate: the trimmed old type against the upper-cased, trimmed, unparameterised new type. */
  predicate TypesMatch(oldDataType: string, newDataType: string) {
    EqualsIgnoreCase(Trim(oldDataType), StripParam(ToUpper(Trim(newDataType))))
  }

  /**
   * validate over the inherited errors (base): at most one error is added, after them, and only
   * when the types differ; a null type is a NullPointerException.
   */
  function Validate(base: seq<string>, oldDataType: Option<string>, newDataType: Option<string>): (r: Result<seq<string>, string>)
    ensures r.Failure? <==> oldDataType.None? || newDataType.None?
    ensures r.Success? ==> |base| <= |r.value| <= |base| + 1 && r.value[..|base|] == base
    ensures r.Success? ==> (|r.value| == |base| + 1 <==> !TypesMatch(oldDataType.value, newDataType.value))
    ensures r.Success? && |r.value| > |base| ==> r.value[|base|] == MismatchError
  {
    if newDataType.None? || oldDataType.None? then Failure(NullTypeError)
    else if TypesMatch(oldDataType.value, newDataType.value) then Success(base)
    else Success(base + [MismatchError])
  }

  class ResizeDataTypeChange {
    var oldDataType: Option<string>
    /** Inherited from the base type change. */
    var newDataType: Option<string>

    constructor()
      ensures oldDataType.None? && newDataType.None?
    {
      oldDataType := None;
      newDataType := None;
    }

    method SetOldDataType(t: Option<string>)
      modifies this
      ensures oldDataType == t && newDataType == old(newDataType)
    {
      oldDataType := t;
    }

    method SetNewDataType(t: Option<string>)
      modifies this
      ensures newDataType == t && oldDataType == old(oldDataType)
    {
      newDataType := t;
    }

    method Statements(dialect: Dialect, base: seq<string>) returns (r: seq<string>)
      ensures r == GenerateStatements(dialect, newDataType, base)
    {
      r := GenerateStatements(dialect, newDataType, base);
    }

    /** validate appends to the list the inherited validation returned. */
    method Errors(base: seq<string>) returns (r: Result<seq<string>, string>)
      ensures r == Validate(base, oldDataType, newDataType)
    {
      if newDataType.None? || oldDataType.None? {
        return Failure(NullTypeError);
      }
      var errors := base;
      var newType := StripParam(ToUpper(Trim(newDataType.value)));
      if !EqualsIgnoreCase(Trim(oldDataType.value), newType) {
        errors := errors + [MismatchError];
      }
      r := Success(errors);
    }
  }

  /** What the upper-casing, trimming and parameter stripping of validate make of a parameterised name. */
  lemma UpperWithParams(name: string, params: string)
    requires IsTrimmed(name) && OpenParen !in name && CloseParen !in name && CloseParen !in params
    ensures StripParam(ToUpper(Trim(WithParams(name, params)))) == ToUpper(name)
    ensures StripParam(ToUpper(Trim(name))) == ToUpper(name)
  {
    var t := WithParams(name, params);
    assert IsTrimmed(t) by {
      if name != [] {
        assert t[0] == name[0];
      }
    }
    TrimTrimmed(t);
    StripUpperWithParams(name, params);
    TrimTrimmed(name);
    ToUpperTrimmed(name);
    ToUpperKeepsAbsent(name, OpenParen);
    ToUpperKeepsAbsent(name, CloseParen);
    StripPlainName(ToUpper(name));
  }

  /** A parameter list on the new type does not change the Oracle LOB test. */
  lemma ParamsIgnoredByLobTest(name: string, params: string)
    requires IsTrimmed(name) && OpenParen !in name && CloseParen !in name && CloseParen !in params
    ensures IsLobType(Some(WithParams(name, params))) == IsLobType(Some(name))
  {
    StripParamSuffix(name, params);
    TrimTrimmed(name);
    StripPlainName(name);
  }

  /** A parameter list on the new type does not change the comparison of validate. */
  lemma ParamsIgnoredByTypeMatch(name: string, params: string, oldDataType: string)
    requires IsTrimmed(name) && OpenParen !in name && CloseParen !in name && CloseParen !in params
    ensures TypesMatch(oldDataType, WithParams(name, params)) == TypesMatch(oldDataType, name)
  {
    UpperWithParams(name, params);
  }

  /** A parameter list on the new type does not change generateStatements. */
  lemma ParamsIgnoredByGenerate(name: string, params: string, dialect: Dialect, base: seq<string>)
    requires IsTrimmed(name) && OpenParen !in name && CloseParen !in name && CloseParen !in params
    ensures GenerateStatements(dialect, Some(WithParams(name, params)), base) == GenerateStatements(dialect, Some(name), base)
  {
    ParamsIgnoredByLobTest(name, params);
  }

  /** A parameter list on the new type does not change validate. */
  lemma ParamsIgnoredByValidate(name: string, params: string, baseErrors: seq<string>, oldDataType: Option<string>)
    requires IsTrimmed(name) && OpenParen !in name && CloseParen !in name && CloseParen !in params
    ensures Validate(baseErrors, oldDataType, Some(WithParams(name, params))) == Validate(baseErrors, oldDataType, Some(name))
  {
    if oldDataType.Some? {
      ParamsIgnoredByTypeMatch(name, params, oldDataType.value);
    }
  }

  /** A plain type name matches itself. */
  lemma TypeMatchesItself(name: string)
    requires IsTrimmed(name) && OpenParen !in name && CloseParen !in name
    ensures TypesMatch(name, name)
  {
    UpperWithParams(name, "");
    TrimTrimmed(name);
  }

  /** A plain type name matches the same name with a parameter list. */
  lemma TypeMatchesParameterised(oldDataType: string, newDataType: string, name: string, params: string)
    requires oldDataType == name && newDataType == WithParams(name, params)
    requires IsTrimmed(name) && OpenParen !in name && CloseParen !in name && CloseParen !in params
    ensures TypesMatch(oldDataType, newDataType)
  {
    ParamsIgnoredByTypeMatch(name, params, name);
    TypeMatchesItself(name);
  }

  /** The types of the parameterised-BLOB unit test, BLOB against BLOB(1048576), pass validate. */
  lemma BlobMatchesParameterisedBlob()
    ensures TypesMatch("BLOB", "BLOB(1048576)")
  {
    TypeMatchesParameterised("BLOB", "BLOB(1048576)", "BLOB", "1048576");
  }

  lemma BlobAgainstParameterisedBlobIsAccepted(baseErrors: seq<string>)
    ensures Validate(baseErrors, Some("BLOB"), Some("BLOB(1048576)")) == Success(baseErrors)
  {
    BlobMatchesParameterisedBlob();
  }

  // Scenarios from the unit tests.

  lemma BooleanAgainstClobIsRejected(baseErrors: seq<string>)
    ensures Validate(baseErrors, Some("boolean"), Some("clob")) == Success(baseErrors + [MismatchError])
  {
    TrimTrimmed("boolean");
    UpperWithParams("clob", "");
  }

  lemma ClobOnOracleIsSkipped(base: seq<string>)
    ensures GenerateStatements(Oracle, Some("clob"), base) == []
  {
    TrimTrimmed("clob");
    StripPlainName("clob");
  }

  lemma ParameterisedBlobIsLob()
    ensures IsLobType(Some("BLOB(1048576)"))
  {
    StripBlobExample();
    assert RemoveParam(Some("BLOB(1048576)")) == Some("BLOB");
  }

  lemma ParameterisedBlobOnOracleIsSkipped(base: seq<string>)
    ensures GenerateStatements(Oracle, Some("BLOB(1048576)"), base) == []
  {
    ParameterisedBlobIsLob();
  }
}
