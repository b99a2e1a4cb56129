/**
 * CopyColumnGenerator: the single UPDATE that copies one column into another, converting the
 * value when the two column types differ in a way the generator knows about.
 */
module CopyColumn {
  import opened Wrappers
  import opened JavaString
  import opened StringUtils
  import opened Host

  /** The statement the change produces; every field may be null. */
  datatype CopyColumnStatement = CopyColumnStatement(
    catalogName: Option<string>, schemaName: Option<string>, tableName: Option<string>,
    fromName: Option<string>, fromType: Option<string>, toName: Option<string>, toType: Option<string>)

  const ClobType := "CLOB"
  const BlobType := "BLOB"
  const CharTypes: seq<string> := ["VARCHAR", "NVARCHAR", "VARCHAR2", "NVARCHAR2", "CHAR"]
  /** NVARCHAR2 is listed here as well as among the character types. */
  const NumericTypes: seq<string> := ["BIGINT", "NUMERIC", "INTEGER", "NVARCHAR2", "DECIMAL"]

  // ---------------------------------------------------------------------------------------------
  // Validation

  /** The fields of the statement, by the names validate reports them under. */
  datatype Field = CatalogName | SchemaName | TableName | FromName | FromType | ToName | ToType

  function FieldName(f: Field): string {
    match f
    case CatalogName => "catalogName"
    case SchemaName => "schemaName"
    case TableName => "tableName"
    case FromName => "fromName"
    case FromType => "fromType"
    case ToName => "toName"
    case ToType => "toType"
  }

  /** The getter of field f. */
  function FieldValue(statement: CopyColumnStatement, f: Field): Option<string> {
    match f
    case CatalogName => statement.catalogName
    case SchemaName => statement.schemaName
    case TableName => statement.tableName
    case FromName => statement.fromName
    case FromType => statement.fromType
    case ToName => statement.toName
    case ToType => statement.toType
  }

  /** The fields validate checks: all but the catalog and the schema. */
  predicate Required(f: Field) {
    f != CatalogName && f != SchemaName
  }

  /** The message of ValidationErrors.checkRequiredField for a null field. */
  function RequiredError(f: Field): (e: string)
    ensures |e| > |FieldName(f)| && e[..|FieldName(f)|] == FieldName(f)
  {
    FieldName(f) + " is required"
  }

  lemma FieldNamesDistinct(f: Field, g: Field)
    requires f != g
    ensures FieldName(f) != FieldName(g)
  {
    if |FieldName(f)| == |FieldName(g)| {
      assert FieldName(f)[2] != FieldName(g)[2] || FieldName(f)[4] != FieldName(g)[4];
    }
  }

  /** Different fields give different messages. */
  lemma RequiredErrorInjective(f: Field, g: Field)
    requires f != g
    ensures RequiredError(f) != RequiredError(g)
  {
    FieldNamesDistinct(f, g);
    if |FieldName(f)| == |FieldName(g)| {
      assert RequiredError(f)[..|FieldName(f)|] == FieldName(f);
      assert RequiredError(g)[..|FieldName(g)|] == FieldName(g);
    }
  }

  /** checkRequiredField: appends the field's message when its value is null. */
  function CheckRequiredField(errors: seq<string>, f: Field, value: Option<string>): (r: seq<string>)
    ensures value.None? ==> r == errors + [RequiredError(f)]
    ensures value.Some? ==> r == errors
  {
    if value.None? then errors + [RequiredError(f)] else errors
  }

  /** The fields validate checks. */
  const RequiredFields: set<Field> := {TableName, FromName, FromType, ToName, ToType}

  lemma RequiredFieldsAreRequired(f: Field)
    ensures f in RequiredFields <==> Required(f)
  {
  }

  /** After checking the fields in checked: exactly the null ones among them are reported, and nothing else. */
  predicate Reports(errors: seq<string>, statement: CopyColumnStatement, checked: set<Field>) {
    && (forall f :: RequiredError(f) in errors <==> f in checked && FieldValue(statement, f).None?)
    && (forall i :: 0 <= i < |errors| ==> exists f :: f in checked && errors[i] == RequiredError(f))
  }

  /** One checkRequiredField call extends what is reported by the field it checks. */
  lemma CheckRequiredFieldReports(errors: seq<string>, statement: CopyColumnStatement, checked: set<Field>, g: Field)
    requires Reports(errors, statement, checked) && g !in checked
    ensures Reports(CheckRequiredField(errors, g, FieldValue(statement, g)), statement, checked + {g})
  {
    var r := CheckRequiredField(errors, g, FieldValue(statement, g));
    forall f
      ensures RequiredError(f) in r <==> f in checked + {g} && FieldValue(statement, f).None?
    {
      if f != g {
        RequiredErrorInjective(f, g);
      }
    }
    forall i | 0 <= i < |r|
      ensures exists f :: f in checked + {g} && r[i] == RequiredError(f)
    {
      if i < |errors| {
        assert r[i] == errors[i];
      } else {
        assert r[i] == RequiredError(g);
      }
    }
  }

  /**
   * validate: one required-field error for each null among the table name, the two column names
   * and the two types, in that order, none for the catalog or the schema, and no other error.
   */
  method Validate(statement: CopyColumnStatement) returns (errors: seq<string>)
    ensures Reports(errors, statement, RequiredFields)
    ensures forall f :: RequiredError(f) in errors <==> Required(f) && FieldValue(statement, f).None?
    ensures |errors| <= 5
  {
    errors := [];
    ghost var checked: set<Field> := {};
    CheckRequiredFieldReports(errors, statement, checked, TableName);
    errors, checked := CheckRequiredField(errors, TableName, statement.tableName), checked + {TableName};
    CheckRequiredFieldReports(errors, statement, checked, FromName);
    errors, checked := CheckRequiredField(errors, FromName, statement.fromName), checked + {FromName};
    CheckRequiredFieldReports(errors, statement, checked, FromType);
    errors, checked := CheckRequiredField(errors, FromType, statement.fromType), checked + {FromType};
    CheckRequiredFieldReports(errors, statement, checked, ToName);
    errors, checked := CheckRequiredField(errors, ToName, statement.toName), checked + {ToName};
    CheckRequiredFieldReports(errors, statement, checked, ToType);
    errors, checked := CheckRequiredField(errors, ToType, statement.toType), checked + {ToType};
    assert checked == RequiredFields;
    forall f ensures f in RequiredFields <==> Required(f) {
      RequiredFieldsAreRequired(f);
    }
  }

  // ---------------------------------------------------------------------------------------------
  // The OracleRawUtil tables

  /** The Oracle types getToBlobFunction knows, in the order it tests them. */
  const ToBlobSources: seq<string> := ["BINARY_DOUBLE", "BINARY_FLOAT", "BINARY_INTEGER", "NUMBER", "VARCHAR2"]

  /** The Oracle types getBlobToFunction knows, in the order it tests them. */
  const BlobToTargets: seq<string> := ["BINARY_DOUBLE", "BINARY_FLOAT", "BINARY_INTEGER", "NUMBER", "NVARCHAR2", "VARCHAR2"]

  /** getToBlobFunction: the UTL_RAW function turning a value of type t into raw bytes, if there is one. */
  function ToBlobFunction(t: string): (f: Option<string>)
    ensures f.Some? <==> t in ToBlobSources
    ensures f.Some? ==> |f.value| > 8 && f.value[..5] == "CAST_"
    ensures t == "VARCHAR2" ==> f == Some("CAST_TO_RAW")
    ensures t in ToBlobSources && t != "VARCHAR2" ==> f == Some("CAST_FROM_" + t)
  {
    if t == "BINARY_DOUBLE" then
      assert "CAST_FROM_BINARY_DOUBLE" == "CAST_FROM_" + t;
      Some("CAST_FROM_BINARY_DOUBLE")
    else if t == "BINARY_FLOAT" then
      assert "CAST_FROM_BINARY_FLOAT" == "CAST_FROM_" + t;
      Some("CAST_FROM_BINARY_FLOAT")
    else if t == "BINARY_INTEGER" then
      assert "CAST_FROM_BINARY_INTEGER" == "CAST_FROM_" + t;
      Some("CAST_FROM_BINARY_INTEGER")
    else if t == "NUMBER" then
      assert "CAST_FROM_NUMBER" == "CAST_FROM_" + t;
      Some("CAST_FROM_NUMBER")
    else if t == "VARCHAR2" then Some("CAST_TO_RAW")
    else None
  }

  /** getBlobToFunction: the UTL_RAW function turning raw bytes into a value of type t, if there is one. */
  function BlobToFunction(t: string): (f: Option<string>)
    ensures f.Some? <==> t in BlobToTargets
    ensures f.Some? ==> |f.value| > 8 && f.value[..8] == "CAST_TO_"
    ensures f == if t in BlobToTargets then Some("CAST_TO_" + t) else None
  {
    if t == "BINARY_DOUBLE" then
      assert "CAST_TO_BINARY_DOUBLE" == "CAST_TO_" + t;
      Some("CAST_TO_BINARY_DOUBLE")
    else if t == "BINARY_FLOAT" then
      assert "CAST_TO_BINARY_FLOAT" == "CAST_TO_" + t;
      Some("CAST_TO_BINARY_FLOAT")
    else if t == "BINARY_INTEGER" then
      assert "CAST_TO_BINARY_INTEGER" == "CAST_TO_" + t;
      Some("CAST_TO_BINARY_INTEGER")
    else if t == "NUMBER" then
      assert "CAST_TO_NUMBER" == "CAST_TO_" + t;
      Some("CAST_TO_NUMBER")
    else if t == "NVARCHAR2" then
      assert "CAST_TO_NVARCHAR2" == "CAST_TO_" + t;
      Some("CAST_TO_NVARCHAR2")
    else if t == "VARCHAR2" then
      assert "CAST_TO_VARCHAR2" == "CAST_TO_" + t;
      Some("CAST_TO_VARCHAR2")
    else None
  }

  /**
   * The character types are not symmetric: VARCHAR2 goes to raw with CAST_TO_RAW and back with
   * CAST_TO_VARCHAR2, NVARCHAR2 only comes back, and every type that can go to raw can come back.
   */
  lemma CharacterRawPairs(t: string)
    ensures t == "VARCHAR2" ==> ToBlobFunction(t) == Some("CAST_TO_RAW") && BlobToFunction(t) == Some("CAST_TO_VARCHAR2")
    ensures t == "NVARCHAR2" ==> ToBlobFunction(t) == None && BlobToFunction(t) == Some("CAST_TO_NVARCHAR2")
    ensures ToBlobFunction(t).Some? ==> BlobToFunction(t).Some?
  {
  }

  // ---------------------------------------------------------------------------------------------
  // The cast cascade

  /** How the source column is read into the target column. */
  datatype CastRule =
    | NoCast               // the source column as it is
    | ToClob               // TO_CLOB(<from>)
    | UtlRaw(fn: string)   // UTL_RAW.<fn>(<from>)
    | Bytea                // CAST(<from> AS BYTEA)
    | CastAs(target: string)  // CAST(<from> AS <target>)

  /** The SET expression that applies rule to the escaped source column. */
  function Render(rule: CastRule, from: string): (e: string)
    ensures rule.NoCast? <==> e == from
    ensures !rule.NoCast? ==> |e| > |from|
    ensures rule.ToClob? ==> e == "TO_CLOB(" + from + ")"
    ensures rule.UtlRaw? ==> e == "UTL_RAW." + rule.fn + "(" + from + ")"
    ensures rule.Bytea? ==> e == "CAST(" + from + " AS BYTEA)"
    ensures rule.CastAs? ==> e == "CAST(" + from + " AS " + rule.target + ")"
  {
    match rule
    case NoCast => from
    case ToClob => "TO_CLOB(" + from + ")"
    case UtlRaw(fn) => "UTL_RAW." + fn + "(" + from + ")"
    case Bytea => "CAST(" + from + " AS BYTEA)"
    case CastAs(target) => "CAST(" + from + " AS " + target + ")"
  }

  /** The cast target of the character-to-numeric case: Postgres strips parameters and has no NUMERIC cast. */
  function NumericTarget(dialect: Dialect, toType: string): (target: string)
    ensures dialect != Postgres ==> target == toType
    ensures dialect == Postgres && StripParam(toType) == "NUMERIC" ==> target == "DOUBLE PRECISION"
    ensures dialect == Postgres && StripParam(toType) != "NUMERIC" ==> target == StripParam(toType)
  {
    if dialect == Postgres then
      var stripped := StripParam(toType);
      if stripped == "NUMERIC" then "DOUBLE PRECISION" else stripped
    else toType
  }

  /**
   * The decision of generateSql over the declared types, upper-cased first: same type, CLOB
   * target, BLOB target, BLOB source, character to numeric, tried in that order, the first that
   * matches deciding; a case whose dialect or table has nothing to offer copies the column as it is.
   */
  function Cast(dialect: Dialect, fromType: string, toType: string): (rule: CastRule)
    ensures rule.ToClob? ==> dialect == Oracle
    ensures rule.Bytea? ==> dialect == Postgres
    ensures rule.UtlRaw? ==> dialect == Oracle
    ensures rule.CastAs? ==> StripParam(ToUpper(fromType)) in CharTypes && StripParam(ToUpper(toType)) in NumericTypes
    ensures !rule.NoCast? ==> ToUpper(fromType) != ToUpper(toType)
  {
    var f, t := ToUpper(fromType), ToUpper(toType);
    if f == t then NoCast
    else if EqualsIgnoreCase(ClobType, t) then
      if dialect == Oracle then ToClob else NoCast
    else if EqualsIgnoreCase(BlobType, t) then
      if dialect == Oracle then
        (match ToBlobFunction(f) case Some(fn) => UtlRaw(fn) case None => NoCast)
      else if dialect == Postgres then Bytea
      else NoCast
    else if EqualsIgnoreCase(BlobType, f) then
      if dialect == Oracle then
        (match BlobToFunction(t) case Some(fn) => UtlRaw(fn) case None => NoCast)
      else NoCast
    else if StripParam(f) in CharTypes && StripParam(t) in NumericTypes then
      CastAs(NumericTarget(dialect, t))
    else NoCast
  }

  /** The one statement generateSql returns: an UPDATE of the target column ending with the expression. */
  function UpdateSql(tableEscaped: string, toEscaped: string, expression: string): (sql: string)
    ensures |sql| == 15 + |tableEscaped| + |toEscaped| + |expression|
    ensures sql[..7] == "UPDATE " && sql[7..7 + |tableEscaped|] == tableEscaped
    ensures sql[7 + |tableEscaped|..12 + |tableEscaped|] == " SET "
    ensures sql[12 + |tableEscaped|..12 + |tableEscaped| + |toEscaped|] == toEscaped
    ensures sql[12 + |tableEscaped| + |toEscaped|..15 + |tableEscaped| + |toEscaped|] == " = "
    ensures sql[|sql| - |expression|..] == expression
  {
    var head := "UPDATE " + tableEscaped + " SET ";
    var mid := head + toEscaped + " = ";
    assert mid[..|head|] == head && mid[|head|..|head| + |toEscaped|] == toEscaped;
    mid + expression
  }

  /**
   * generateSql, given the escaped table and column names. It dereferences both types, which
   * validate reports when they are null.
   */
  method GenerateSql(dialect: Dialect, statement: CopyColumnStatement,
                     tableEscaped: string, fromEscaped: string, toEscaped: string) returns (sql: seq<string>)
    requires statement.fromType.Some? && statement.toType.Some?
    ensures sql == [UpdateSql(tableEscaped, toEscaped,
                              Render(Cast(dialect, statement.fromType.value, statement.toType.value), fromEscaped))]
  {
    var text := "UPDATE " + tableEscaped + " SET " + toEscaped + " = ";
    var srcField := fromEscaped;
    var fromType := ToUpper(statement.fromType.value);
    var toType := ToUpper(statement.toType.value);
    if fromType != toType {
      if EqualsIgnoreCase(ClobType, toType) {
        if dialect == Oracle {
          srcField := "TO_CLOB(" + fromEscaped + ")";
        }
      } else if EqualsIgnoreCase(BlobType, toType) {
        if dialect == Oracle {
          var fun := ToBlobFunction(fromType);
          if fun.Some? {
            srcField := "UTL_RAW." + fun.value + "(" + fromEscaped + ")";
          }
        } else if dialect == Postgres {
          srcField := "CAST(" + fromEscaped + " AS BYTEA)";
        }
      } else if EqualsIgnoreCase(BlobType, fromType) {
        if dialect == Oracle {
          var fun := BlobToFunction(toType);
          if fun.Some? {
            srcField := "UTL_RAW." + fun.value + "(" + fromEscaped + ")";
          }
        }
      } else if StripParam(fromType) in CharTypes && StripParam(toType) in NumericTypes {
        if dialect == Postgres {
          toType := StripParam(toType);
          if toType == "NUMERIC" {
            toType := "DOUBLE PRECISION";
          }
        }
        srcField := "CAST(" + fromEscaped + " AS " + toType + ")";
      }
    }
    text := text + srcField;
    sql := [text];
  }

  // ---------------------------------------------------------------------------------------------
  // The cases of the cascade, one lemma each, stated over the upper-cased declared types

  /** The two LOB type names are their own upper-cased forms. */
  lemma LobNamesUpper()
    ensures ToUpper(ClobType) == ClobType && ToUpper(BlobType) == BlobType
  {
    ToUpperUnchanged(ClobType);
    ToUpperUnchanged(BlobType);
  }

  /** The LOB tests of the cascade compare the whole upper-cased type with the LOB name. */
  lemma LobTests(f: string, t: string)
    ensures EqualsIgnoreCase(ClobType, ToUpper(t)) <==> ToUpper(t) == ClobType
    ensures EqualsIgnoreCase(BlobType, ToUpper(t)) <==> ToUpper(t) == BlobType
    ensures EqualsIgnoreCase(BlobType, ToUpper(f)) <==> ToUpper(f) == BlobType
  {
    LobNamesUpper();
    EqualsIgnoreCaseUpper(ClobType, t);
    EqualsIgnoreCaseUpper(BlobType, t);
    EqualsIgnoreCaseUpper(BlobType, f);
  }

  /** Types equal up to case: the column is copied as it is. */
  lemma SameTypeCopiesColumn(dialect: Dialect, f: string, t: string)
    requires ToUpper(f) == ToUpper(t)
    ensures Cast(dialect, f, t) == NoCast
  {
  }

  /** Target CLOB: TO_CLOB on Oracle, the bare column elsewhere. */
  lemma ClobTarget(dialect: Dialect, f: string, t: string)
    requires ToUpper(f) != ToUpper(t) && ToUpper(t) == ClobType
    ensures Cast(dialect, f, t) == if dialect == Oracle then ToClob else NoCast
  {
    LobTests(f, t);
  }

  /** Target BLOB: the to-raw function of the source type on Oracle (if it has one), BYTEA on Postgres. */
  lemma BlobTarget(dialect: Dialect, f: string, t: string)
    requires ToUpper(f) != ToUpper(t) && ToUpper(t) == BlobType
    ensures dialect == Oracle && ToBlobFunction(ToUpper(f)).Some?
            ==> Cast(dialect, f, t) == UtlRaw(ToBlobFunction(ToUpper(f)).value)
    ensures dialect == Oracle && ToBlobFunction(ToUpper(f)).None? ==> Cast(dialect, f, t) == NoCast
    ensures dialect == Postgres ==> Cast(dialect, f, t) == Bytea
    ensures dialect != Oracle && dialect != Postgres ==> Cast(dialect, f, t) == NoCast
  {
    LobTests(f, t);
  }

  /** Source BLOB into anything but a LOB: the from-raw function of the target type, on Oracle only. */
  lemma BlobSource(dialect: Dialect, f: string, t: string)
    requires ToUpper(f) == BlobType && ToUpper(t) != BlobType && ToUpper(t) != ClobType
    ensures dialect == Oracle && BlobToFunction(ToUpper(t)).Some?
            ==> Cast(dialect, f, t) == UtlRaw(BlobToFunction(ToUpper(t)).value)
    ensures dialect != Oracle || BlobToFunction(ToUpper(t)).None? ==> Cast(dialect, f, t) == NoCast
  {
    LobTests(f, t);
  }

  /**
   * Character into numeric: a CAST to the upper-cased target type, or on Postgres to the
   * unparameterised one with NUMERIC read as DOUBLE PRECISION. No LOB case can have matched
   * first, because neither LOB name is a character or a numeric type.
   */
  lemma CharToNumeric(dialect: Dialect, f: string, t: string)
    requires ToUpper(f) != ToUpper(t)
    requires StripParam(ToUpper(f)) in CharTypes && StripParam(ToUpper(t)) in NumericTypes
    ensures Cast(dialect, f, t) == CastAs(NumericTarget(dialect, ToUpper(t)))
  {
    LobTests(f, t);
    LobNamesUnlisted();
    assert ToUpper(t) != ClobType && ToUpper(t) != BlobType && ToUpper(f) != BlobType;
  }

  /** A plain type name that strips to itself. */
  lemma ClobStripsToItself()
    ensures StripParam(ClobType) == ClobType
  {
    StripPlainName(ClobType);
  }

  lemma BlobStripsToItself()
    ensures StripParam(BlobType) == BlobType
  {
    StripPlainName(BlobType);
  }

  lemma LobNamesNotListed()
    ensures ClobType !in NumericTypes && BlobType !in NumericTypes
    ensures ClobType !in CharTypes && BlobType !in CharTypes
  {
  }

  /** Neither LOB name, nor anything that strips to one, is a character or a numeric type. */
  lemma LobNamesUnlisted()
    ensures StripParam(ClobType) == ClobType && StripParam(BlobType) == BlobType
    ensures ClobType !in NumericTypes && BlobType !in NumericTypes
    ensures ClobType !in CharTypes && BlobType !in CharTypes
  {
    ClobStripsToItself();
    BlobStripsToItself();
    LobNamesNotListed();
  }

  /** No case matches: the column is copied as it is. */
  lemma OtherwiseCopiesColumn(dialect: Dialect, f: string, t: string)
    requires ToUpper(t) != ClobType && ToUpper(t) != BlobType && ToUpper(f) != BlobType
    requires !(StripParam(ToUpper(f)) in CharTypes && StripParam(ToUpper(t)) in NumericTypes)
    ensures Cast(dialect, f, t) == NoCast
  {
    LobTests(f, t);
  }

  /** The CLOB case comes first: a BLOB column copied into a CLOB column is read with TO_CLOB, not UTL_RAW. */
  lemma ClobTargetBeforeBlobSource(dialect: Dialect, f: string, t: string)
    requires ToUpper(f) == BlobType && ToUpper(t) == ClobType
    ensures Cast(dialect, f, t) == if dialect == Oracle then ToClob else NoCast
  {
    ClobTarget(dialect, f, t);
  }

  /** Upper-casing BLOB(p) or CLOB(p) leaves the name as it is. */
  lemma UpperParameterisedLob(name: string, params: string)
    requires name == ClobType || name == BlobType
    ensures ToUpper(WithParams(name, params)) == WithParams(name, ToUpper(params))
  {
    LobNamesUpper();
    ToUpperWithParams(name, params);
  }

  /** BLOB(p) and CLOB(p), upper-cased, are neither a LOB name nor a from-raw target. */
  lemma ParameterisedLobIsNoLobName(name: string, u: string)
    requires name == ClobType || name == BlobType
    requires |u| > |name| && u[..|name|] == name
    ensures u != ClobType && u != BlobType && u !in BlobToTargets
  {
    assert u[1] == name[1] == 'L';
  }

  /** BLOB(p) and CLOB(p), upper-cased, strip to the LOB name. */
  lemma ParameterisedLobStrips(name: string, params: string)
    requires name == ClobType || name == BlobType
    requires CloseParen !in params
    ensures StripParam(ToUpper(WithParams(name, params))) == name
  {
    LobNamesUpper();
    StripUpperWithParams(name, params);
  }

  /**
   * The LOB cases compare whole type names: a parameterised BLOB(n) or CLOB(n) target is no LOB
   * target, and as it strips to a LOB name it is no numeric target either, so the column is copied as it is.
   */
  lemma ParameterisedLobTargetCopiesColumn(dialect: Dialect, f: string, name: string, params: string)
    requires name == ClobType || name == BlobType
    requires CloseParen !in params
    ensures Cast(dialect, f, WithParams(name, params)) == NoCast
  {
    var t := WithParams(name, params);
    UpperParameterisedLob(name, params);
    ParameterisedLobIsNoLobName(name, ToUpper(t));
    ParameterisedLobStrips(name, params);
    LobNamesUnlisted();
    LobTests(f, t);
  }

  /** The facts about VARCHAR2 and NVARCHAR2 the cascade needs, one at a time. */
  lemma Varchar2IsChar(fromType: string)
    requires fromType == "VARCHAR2"
    ensures StripParam(ToUpper(fromType)) in CharTypes
  {
    ToUpperUnchanged(fromType);
    StripPlainName(fromType);
  }

  lemma NVarchar2IsNumeric(toType: string)
    requires toType == "NVARCHAR2"
    ensures StripParam(ToUpper(toType)) in NumericTypes
  {
    ToUpperUnchanged(toType);
    StripPlainName(toType);
  }

  lemma NVarchar2Target(dialect: Dialect, toType: string)
    requires toType == "NVARCHAR2"
    ensures NumericTarget(dialect, ToUpper(toType)) == toType
  {
    ToUpperUnchanged(toType);
    StripPlainName(toType);
  }

  lemma Varchar2IsNotNVarchar2(fromType: string, toType: string)
    requires fromType == "VARCHAR2" && toType == "NVARCHAR2"
    ensures ToUpper(fromType) != ToUpper(toType)
  {
    ToUpperUnchanged(fromType);
    ToUpperUnchanged(toType);
  }

  /** NVARCHAR2 is both a character and a numeric type, so a VARCHAR2 column copied into it is CAST. */
  lemma NVarchar2CountsAsNumeric(dialect: Dialect, fromType: string, toType: string)
    requires fromType == "VARCHAR2" && toType == "NVARCHAR2"
    ensures toType in CharTypes && toType in NumericTypes
    ensures Cast(dialect, fromType, toType) == CastAs(toType)
  {
    Varchar2IsChar(fromType);
    NVarchar2IsNumeric(toType);
    NVarchar2Target(dialect, toType);
    Varchar2IsNotNVarchar2(fromType, toType);
    CharToNumeric(dialect, fromType, toType);
  }

  // ---------------------------------------------------------------------------------------------
  // Scenarios from the unit tests (the escaped source column there is myfromname)
  //
  // The literals enter as parameters constrained by requires (fromType == "VARCHAR2", ...) rather
  // than being written into the ensures: the verifier then reasons about one named string at a time
  // through the general lemmas above instead of unfolding the type-name functions on whole literals,
  // which keeps these proofs small and stable.

  lemma OracleVarchar2ToClob(fromType: string, toType: string)
    requires fromType == "VARCHAR2" && toType == "CLOB"
    ensures Cast(Oracle, fromType, toType) == ToClob
  {
    ToUpperUnchanged(toType);
    ClobTarget(Oracle, fromType, toType);
  }

  lemma PostgresCopyToClob(fromType: string, toType: string)
    requires fromType == "myfromtype" && toType == "CLOB"
    ensures Cast(Postgres, fromType, toType) == NoCast
  {
    ToUpperUnchanged(toType);
    ClobTarget(Postgres, fromType, toType);
  }

  /** The upper-cased VARCHAR2 source, and its to-raw function. */
  lemma Varchar2ToRaw(fromType: string)
    requires fromType == "VARCHAR2"
    ensures ToBlobFunction(ToUpper(fromType)) == Some("CAST_TO_RAW")
  {
    ToUpperUnchanged(fromType);
  }

  lemma Varchar2ToBlob(dialect: Dialect, fromType: string, toType: string)
    requires fromType == "VARCHAR2" && toType == "BLOB"
    ensures dialect == Oracle ==> Cast(dialect, fromType, toType) == UtlRaw("CAST_TO_RAW")
    ensures dialect == Postgres ==> Cast(dialect, fromType, toType) == Bytea
    ensures dialect == OtherDialect ==> Cast(dialect, fromType, toType) == NoCast
  {
    ToUpperUnchanged(toType);
    Varchar2ToRaw(fromType);
    BlobTarget(dialect, fromType, toType);
  }

  /** The upper-cased NUMBER target, and its from-raw function. */
  lemma NumberFromRaw(toType: string)
    requires toType == "NUMBER"
    ensures ToUpper(toType) != BlobType && ToUpper(toType) != ClobType
    ensures BlobToFunction(ToUpper(toType)) == Some("CAST_TO_NUMBER")
  {
    ToUpperUnchanged(toType);
  }

  lemma OracleBlobToNumber(fromType: string, toType: string)
    requires fromType == "BLOB" && toType == "NUMBER"
    ensures Cast(Oracle, fromType, toType) == UtlRaw("CAST_TO_NUMBER")
  {
    ToUpperUnchanged(fromType);
    NumberFromRaw(toType);
    BlobSource(Oracle, fromType, toType);
  }

  lemma BigintIsNumeric(dialect: Dialect, toType: string)
    requires toType == "BIGINT"
    ensures StripParam(ToUpper(toType)) in NumericTypes
    ensures NumericTarget(dialect, ToUpper(toType)) == "BIGINT"
  {
    ToUpperUnchanged(toType);
    StripPlainName(toType);
  }

  lemma PostgresVarchar2ToBigint(fromType: string, toType: string)
    requires fromType == "VARCHAR2" && toType == "BIGINT"
    ensures Cast(Postgres, fromType, toType) == CastAs("BIGINT")
  {
    Varchar2IsChar(fromType);
    BigintIsNumeric(Postgres, toType);
    CharToNumeric(Postgres, fromType, toType);
  }

  lemma Numeric22And8IsNumeric(dialect: Dialect, toType: string)
    requires toType == "NUMERIC(22,8)"
    ensures StripParam(ToUpper(toType)) in NumericTypes
    ensures NumericTarget(dialect, ToUpper(toType)) == if dialect == Postgres then "DOUBLE PRECISION" else toType
  {
    ToUpperUnchanged(toType);
    StripNumericExample();
  }

  /** NUMERIC(22,8) is CAST as written, except on Postgres, where it becomes DOUBLE PRECISION. */
  lemma Varchar2ToNumeric22And8(dialect: Dialect, fromType: string, toType: string)
    requires fromType == "VARCHAR2" && toType == "NUMERIC(22,8)"
    ensures Cast(dialect, fromType, toType) == CastAs(if dialect == Postgres then "DOUBLE PRECISION" else "NUMERIC(22,8)")
  {
    Varchar2IsChar(fromType);
    Numeric22And8IsNumeric(dialect, toType);
    CharToNumeric(dialect, fromType, toType);
  }

  /** Two renderings the unit tests look for, on the source column myfromname. */
  lemma RenderDoublePrecision(from: string)
    requires from == "myfromname"
    ensures Render(CastAs("DOUBLE PRECISION"), from) == "CAST(myfromname AS DOUBLE PRECISION)"
  {
  }

  lemma RenderCastToRaw(from: string)
    requires from == "myfromname"
    ensures Render(UtlRaw("CAST_TO_RAW"), from) == "UTL_RAW.CAST_TO_RAW(myfromname)"
  {
  }

  /** The Postgres NUMERIC(22,8) scenario reads the column as CAST(myfromname AS DOUBLE PRECISION). */
  lemma PostgresNumericExpression(fromType: string, toType: string, from: string)
    requires fromType == "VARCHAR2" && toType == "NUMERIC(22,8)" && from == "myfromname"
    ensures Render(Cast(Postgres, fromType, toType), from) == "CAST(myfromname AS DOUBLE PRECISION)"
  {
    Varchar2ToNumeric22And8(Postgres, fromType, toType);
    RenderDoublePrecision(from);
  }

  /** The Oracle VARCHAR2-to-BLOB scenario reads the column as UTL_RAW.CAST_TO_RAW(myfromname). */
  lemma OracleVarchar2ToBlobExpression(fromType: string, toType: string, from: string)
    requires fromType == "VARCHAR2" && toType == "BLOB" && from == "myfromname"
    ensures Render(Cast(Oracle, fromType, toType), from) == "UTL_RAW.CAST_TO_RAW(myfromname)"
  {
    Varchar2ToBlob(Oracle, fromType, toType);
    RenderCastToRaw(from);
  }
}
