# liquibase-extensions core, in Dafny

A model of the decision logic that nfalco79/liquibase-extensions adds to the Liquibase schema-migration engine. It covers:

- **CopyColumnGenerator.** It builds `UPDATE <table> SET <to> = <expr>`, where `<expr>` reads the source column through a dialect-specific cast. The cast is chosen by an ordered cascade: same type, CLOB target, BLOB target, BLOB source, then character to numeric. Two Oracle `UTL_RAW` function tables feed it. Its `validate` reports required fields.
- **StringUtils.removeParam.** It cuts a parameter list such as `(22,8)` off a type name.
- **DatabaseVersionPrecondition.** It has four configuration fields with their Java defaults, and a `validate`. Its `check` returns a pass, failure or error verdict for the live database version against a configured range.
- **CreateIndexGeneratorDB2.** Its `supports` accepts DB2 from version 10.5 on, and offline DB2 always. Its `generateSql` appends `EXCLUDE NULL KEYS`.
- **ResizeDataTypeChange.** On Oracle it generates nothing for a LOB target type. Its `validate` requires the old type to match the new type once parameters are stripped.
- **NonNullConstraintExistsPrecondition.** Its setters apply trim-to-null. Its `validate` requires the table or the column name. Its `check` returns a verdict over the snapshot lookup.

Files, one module each:

- `wrappers.dfy`: `Option` and `Result`.
- `java_string.dfy`: the `java.lang.String` operations the core relies on: `trim`, `toUpperCase`, `equalsIgnoreCase` and `indexOf`. It also holds Liquibase's `StringUtil.trimToNull`.
- `string_utils.dfy`: `removeParam`.
- `versions.dfy`: `Version` and `VersionRange`, with parsing and rendering. These are helper types whose source is not part of this model (see below).
- `host.dfy`: what the host engine supplies and receives: the dialect, the database identity and version query, and the verdict.
- `copy_column.dfy`, `version_precondition.dfy`, `db2_index.dfy`, `resize_data_type.dfy` and `nonnull_precondition.dfy`: the five components.

Java `null` is `None`. The database's Java class (`instanceof OracleDatabase`, ...) is the `Dialect` tag. An exception thrown by a collaborator is a variant of the input it comes from, such as `QueryFailed` or `SnapshotFailed`.

A precondition's outcome is a `Verdict`:

- `Passed`;
- `Failed(message)`, for `PreconditionFailedException`;
- `Errored`, for `PreconditionErrorException`;
- `Aborted`, for an unchecked exception escaping `check`.

Classes are used where the source mutates fields through setters. Their decisions are module-level functions over a snapshot of those fields, so lemmas can state properties of them.

Two details of `generateSql` decide cases that look alike:

- **Same-type case.** The code compares the upper-cased types without stripping parameters (`CopyColumnGenerator.java:74`). So `NUMERIC` and `NUMERIC(22,8)` are different types there.
- **LOB cases.** The CLOB and BLOB cases compare the whole upper-cased type with `equalsIgnoreCase` (lines 75, 79, 88). So a parameterised `BLOB(n)` or `CLOB(n)` never takes a LOB case. Because it strips to a LOB name, which is neither a character nor a numeric type, it is copied without a cast (`CopyColumn.ParameterisedLobTargetCopiesColumn`).

## Model

| member | source | states |
|---|---|---|
| CopyColumn.RequiredErrorInjective | src/main/java/liquibase/ext/nfalco79/CopyColumnGenerator.java:52-56 | the five required-field messages are pairwise different, so each error names one field |
| CopyColumn.CheckRequiredFieldReports | src/main/java/liquibase/ext/nfalco79/CopyColumnGenerator.java:52-56 | one checkRequiredField call reports its field exactly when the value is null, keeps the earlier reports and adds nothing else |
| CopyColumn.Validate | src/main/java/liquibase/ext/nfalco79/CopyColumnGenerator.java:50-59 | a field's "<field> is required" error is present iff the field is one of tableName, fromName, fromType, toName, toType and is null; every error is such a message; at most five errors; catalog and schema are never reported |
| CopyColumn.ToBlobFunction | src/main/java/liquibase/ext/nfalco79/CopyColumnGenerator.java:113-126 | getToBlobFunction has an entry exactly for BINARY_DOUBLE, BINARY_FLOAT, BINARY_INTEGER, NUMBER and VARCHAR2; VARCHAR2 maps to CAST_TO_RAW and every other listed type T to CAST_FROM_T |
| CopyColumn.BlobToFunction | src/main/java/liquibase/ext/nfalco79/CopyColumnGenerator.java:127-142 | getBlobToFunction has an entry exactly for those types plus NVARCHAR2, and each listed type T maps to CAST_TO_T; any other type has none |
| CopyColumn.CharacterRawPairs | src/main/java/liquibase/ext/nfalco79/CopyColumnGenerator.java:113-142 | VARCHAR2 goes to raw with CAST_TO_RAW and back with CAST_TO_VARCHAR2; NVARCHAR2 only comes back; every type that can go to raw can come back |
| CopyColumn.Render | src/main/java/liquibase/ext/nfalco79/CopyColumnGenerator.java:69-103 | the SET expression is the bare source column exactly when no cast applies; otherwise it is TO_CLOB(<from>), UTL_RAW.<fn>(<from>), CAST(<from> AS BYTEA) or CAST(<from> AS <target>), as the rule says |
| CopyColumn.NumericTarget | src/main/java/liquibase/ext/nfalco79/CopyColumnGenerator.java:97-103 | the CAST target is the upper-cased toType off Postgres; on Postgres it is the stripped toType, with NUMERIC rewritten to DOUBLE PRECISION |
| CopyColumn.Cast | src/main/java/liquibase/ext/nfalco79/CopyColumnGenerator.java:71-105 | TO_CLOB and UTL_RAW only on Oracle, BYTEA only on Postgres; a CAST only for a character source into a numeric target; any cast only when the upper-cased types differ |
| CopyColumn.GenerateSql | src/main/java/liquibase/ext/nfalco79/CopyColumnGenerator.java:62-110 | the step-by-step generator returns exactly one statement, "UPDATE <table> SET <to> = " followed by the source column rendered through the cascade's rule |
| CopyColumn.UpdateSql | src/main/java/liquibase/ext/nfalco79/CopyColumnGenerator.java:67-107 | the statement is "UPDATE ", the escaped table, " SET ", the escaped target column, " = " and then the expression, each at its place |
| CopyColumn.LobTests | src/main/java/liquibase/ext/nfalco79/CopyColumnGenerator.java:75-88 | on an upper-cased type, equalsIgnoreCase with CLOB or BLOB holds iff the type is exactly that name |
| CopyColumn.SameTypeCopiesColumn | src/main/java/liquibase/ext/nfalco79/CopyColumnGenerator.java:69-107 | types equal up to case: the column is copied with no cast, on every dialect |
| CopyColumn.ClobTarget | src/main/java/liquibase/ext/nfalco79/CopyColumnGenerator.java:75-78 | target CLOB: TO_CLOB on Oracle, the bare column on every other dialect |
| CopyColumn.BlobTarget | src/main/java/liquibase/ext/nfalco79/CopyColumnGenerator.java:79-87 | target BLOB on Oracle: UTL_RAW with the source's to-raw function, or the bare column when the table has none; on Postgres, CAST AS BYTEA; elsewhere the bare column |
| CopyColumn.BlobSource | src/main/java/liquibase/ext/nfalco79/CopyColumnGenerator.java:88-94 | source BLOB into a non-LOB target: UTL_RAW with the target's from-raw function on Oracle; otherwise, or without an entry, the bare column |
| CopyColumn.CharToNumeric | src/main/java/liquibase/ext/nfalco79/CopyColumnGenerator.java:95-103 | a stripped source in CHAR_TYPES and a stripped target in NUMERIC_TYPES give CAST(<from> AS NumericTarget(toType)); no LOB case can have matched first |
| CopyColumn.LobNamesUnlisted | src/main/java/liquibase/ext/nfalco79/CopyColumnGenerator.java:34-37 | CLOB and BLOB strip to themselves and are in neither CHAR_TYPES nor NUMERIC_TYPES |
| CopyColumn.OtherwiseCopiesColumn | src/main/java/liquibase/ext/nfalco79/CopyColumnGenerator.java:95-107 | when no case matches, the column is copied with no cast |
| CopyColumn.ClobTargetBeforeBlobSource | src/main/java/liquibase/ext/nfalco79/CopyColumnGenerator.java:75-94 | the cases are ordered: BLOB into CLOB takes the CLOB case (TO_CLOB on Oracle), not the BLOB-source case |
| CopyColumn.ParameterisedLobTargetCopiesColumn | src/main/java/liquibase/ext/nfalco79/CopyColumnGenerator.java:75-96 | a parameterised CLOB(p) or BLOB(p) target takes no case at all: the column is copied with no cast |
| CopyColumn.NVarchar2CountsAsNumeric | src/main/java/liquibase/ext/nfalco79/CopyColumnGenerator.java:95-103 | NVARCHAR2 is in both tables, so VARCHAR2 into NVARCHAR2 is CAST(<from> AS NVARCHAR2) |
| CopyColumn.OracleVarchar2ToClob | src/test/java/liquibase/ext/nfalco79/CopyColumnGeneratorTest.java:42-48 | Oracle, VARCHAR2 into CLOB: TO_CLOB |
| CopyColumn.PostgresCopyToClob | src/test/java/liquibase/ext/nfalco79/CopyColumnGeneratorTest.java:51-57 | Postgres, myfromtype into CLOB: no cast |
| CopyColumn.Varchar2ToBlob | src/test/java/liquibase/ext/nfalco79/CopyColumnGeneratorTest.java:60-85 | VARCHAR2 into BLOB: UTL_RAW.CAST_TO_RAW on Oracle, BYTEA on Postgres, no cast elsewhere |
| CopyColumn.OracleVarchar2ToBlobExpression | src/test/java/liquibase/ext/nfalco79/CopyColumnGeneratorTest.java:60-66 | the Oracle expression is exactly UTL_RAW.CAST_TO_RAW(myfromname) |
| CopyColumn.OracleBlobToNumber | src/test/java/liquibase/ext/nfalco79/CopyColumnGeneratorTest.java:88-94 | Oracle, BLOB into NUMBER: UTL_RAW.CAST_TO_NUMBER |
| CopyColumn.PostgresVarchar2ToBigint | src/test/java/liquibase/ext/nfalco79/CopyColumnGeneratorTest.java:97-103 | Postgres, VARCHAR2 into BIGINT: CAST AS BIGINT |
| CopyColumn.Varchar2ToNumeric22And8 | src/test/java/liquibase/ext/nfalco79/CopyColumnGeneratorTest.java:106-121 | VARCHAR2 into NUMERIC(22,8): CAST AS DOUBLE PRECISION on Postgres, CAST AS NUMERIC(22,8) elsewhere |
| CopyColumn.PostgresNumericExpression | src/test/java/liquibase/ext/nfalco79/CopyColumnGeneratorTest.java:106-112 | the Postgres expression is exactly CAST(myfromname AS DOUBLE PRECISION) |
| StringUtils.StripParam | src/main/java/liquibase/ext/nfalco79/util/StringUtils.java:35-42 | the result is trimmed; without both parentheses it is the input trimmed |
| StringUtils.Unparam | src/main/java/liquibase/ext/nfalco79/util/StringUtils.java:35-41 | without both parentheses the string is kept whole before trimming |
| StringUtils.RemoveParam | src/main/java/liquibase/ext/nfalco79/util/StringUtils.java:33-46 | null iff the input is null; otherwise trimmed; when '(' or ')' is missing, the input trimmed |
| StringUtils.StripFirstGroup | src/main/java/liquibase/ext/nfalco79/util/StringUtils.java:35-42 | a + "(" + p + ")" + b, with the first parentheses those shown, strips to trim(a + b) |
| StringUtils.StripPlainName | src/main/java/liquibase/ext/nfalco79/util/StringUtils.java:38-42 | a trimmed name without parentheses comes back unchanged |
| StringUtils.StripParamSuffix | src/main/java/liquibase/ext/nfalco79/util/StringUtils.java:39-42 | a parameter suffix on a parenthesis-free name is dropped: t(p) strips to trim(t) |
| StringUtils.StripUpperWithParams | src/main/java/liquibase/ext/nfalco79/util/StringUtils.java:39-42 | an upper-cased name(params) strips to the upper-cased name |
| StringUtils.StripNumericExample | src/main/java/liquibase/ext/nfalco79/util/StringUtils.java:39-42 | NUMERIC(22,8) strips to NUMERIC |
| StringUtils.StripBlobExample | src/test/java/liquibase/ext/nfalco79/ResizeDataTypeChangeTest.java:45-48 | BLOB(1048576) strips to BLOB |
| StringUtils.StripOnlyFirstGroup | src/main/java/liquibase/ext/nfalco79/util/StringUtils.java:35-40 | only the first group is cut: A(1)B(2) strips to AB(2) |
| StringUtils.StripNotIdempotent | src/main/java/liquibase/ext/nfalco79/util/StringUtils.java:35-40 | stripping again cuts the next group, so removeParam is not idempotent |
| StringUtils.UnparamMisordered | src/main/java/liquibase/ext/nfalco79/util/StringUtils.java:35-40 | when the first ')' precedes the first '(', the kept slices overlap and the string grows by the characters between them |
| StringUtils.StripMisorderedParens | src/main/java/liquibase/ext/nfalco79/util/StringUtils.java:35-42 | A)B(C becomes A)BB(C |
| VersionPrecondition.DatabaseVersionPrecondition.constructor | src/main/java/liquibase/ext/nfalco79/precondition/DatabaseVersionPrecondition.java:41-44 | both flags start false and both bounds null |
| VersionPrecondition.DatabaseVersionPrecondition.SetMaxVersion | src/main/java/liquibase/ext/nfalco79/precondition/DatabaseVersionPrecondition.java:84-86 | stores maxVersion and changes no other field |
| VersionPrecondition.DatabaseVersionPrecondition.SetMinVersion | src/main/java/liquibase/ext/nfalco79/precondition/DatabaseVersionPrecondition.java:92-94 | stores minVersion and changes no other field |
| VersionPrecondition.DatabaseVersionPrecondition.SetMaxIncluded | src/main/java/liquibase/ext/nfalco79/precondition/DatabaseVersionPrecondition.java:100-102 | stores maxIncluded and changes no other field |
| VersionPrecondition.DatabaseVersionPrecondition.SetMinIncluded | src/main/java/liquibase/ext/nfalco79/precondition/DatabaseVersionPrecondition.java:108-110 | stores minIncluded and changes no other field |
| VersionPrecondition.DatabaseVersionPrecondition.Validate | src/main/java/liquibase/ext/nfalco79/precondition/DatabaseVersionPrecondition.java:118-124 | "Either minVersion or maxVersion must be set" is the only possible error, and it is reported iff both bounds are null |
| VersionPrecondition.DatabaseVersionPrecondition.Check | src/main/java/liquibase/ext/nfalco79/precondition/DatabaseVersionPrecondition.java:59-73 | the verdict of check on the current field values, as CheckVersion decides it |
| VersionPrecondition.DatabaseVersion | src/main/java/liquibase/ext/nfalco79/precondition/DatabaseVersionPrecondition.java:75-78 | the live version is (major, minor, 0) when the query answers, absent when it throws |
| VersionPrecondition.Bound | src/main/java/liquibase/ext/nfalco79/precondition/DatabaseVersionPrecondition.java:62-63 | a null bound is absent; set text gives its parsed version, or a failure when it does not parse |
| VersionPrecondition.ExpectedRange | src/main/java/liquibase/ext/nfalco79/precondition/DatabaseVersionPrecondition.java:62-63 | the range keeps both inclusion flags; each bound is absent exactly when its setting is null, and is the parse of its setting's text otherwise; a malformed text gives no range |
| VersionPrecondition.CheckVersion | src/main/java/liquibase/ext/nfalco79/precondition/DatabaseVersionPrecondition.java:59-73 | an error iff the version query fails; a pass iff the range includes the live version; otherwise a failure whose message is "Expected DB version in <range> but found <product> version '<v>'" |
| VersionPrecondition.FailureMessage | src/main/java/liquibase/ext/nfalco79/precondition/DatabaseVersionPrecondition.java:66-67 | the message is "Expected DB version in ", the rendered range, " but found ", the product name, " version " and the quoted rendered version, each at its place |
| VersionPrecondition.FailsIffExcluded | src/main/java/liquibase/ext/nfalco79/precondition/DatabaseVersionPrecondition.java:65-68 | with a well-formed range and an answering database, check fails exactly when the range excludes (major, minor, 0) |
| VersionPrecondition.MaxTwelveInclusivePasses | src/test/java/liquibase/ext/nfalco79/precondition/DatabaseVersionPreconditionTest.java:45-51 | max 12 inclusive, live 11.2: passes |
| VersionPrecondition.MinTenOnePasses | src/test/java/liquibase/ext/nfalco79/precondition/DatabaseVersionPreconditionTest.java:54-59 | min 10.1, live 11.2: passes |
| VersionPrecondition.MaxElevenTwoInclusiveFailsOnTwelveOne | src/test/java/liquibase/ext/nfalco79/precondition/DatabaseVersionPreconditionTest.java:62-68 | max 11.2 inclusive, live 12.1: fails, with the message naming the range up to 11.2.0 inclusive and the version 12.1.0 |
| VersionPrecondition.HalfOpenElevenTwelvePasses | src/test/java/liquibase/ext/nfalco79/precondition/DatabaseVersionPreconditionTest.java:71-78 | [11, 12), live 11.2: passes |
| Db2Index.CreateIndexGeneratorDB2.constructor | src/main/java/liquibase/ext/nfalco79/CreateIndexGeneratorDB2.java:41-43 | the supported range is "10.5" parsed, inclusive, with no upper bound |
| Db2Index.CreateIndexGeneratorDB2.Supports | src/main/java/liquibase/ext/nfalco79/CreateIndexGeneratorDB2.java:51-66 | true iff the database is DB2 and either offline or reporting a version from 10.5 on; false for other products and on a version-read error |
| Db2Index.SupportedRangeThreshold | src/main/java/liquibase/ext/nfalco79/CreateIndexGeneratorDB2.java:42-59 | [10.5, ) includes (major, minor, 0) iff major > 10, or major is 10 and minor >= 5 |
| Db2Index.NotSupportedOffDb2 | src/main/java/liquibase/ext/nfalco79/CreateIndexGeneratorDB2.java:52-65 | any other product is not supported, whatever the range |
| Db2Index.SupportedOffline | src/main/java/liquibase/ext/nfalco79/CreateIndexGeneratorDB2.java:54-55 | DB2 without a connection is supported, whatever the range |
| Db2Index.NotSupportedOnReadError | src/main/java/liquibase/ext/nfalco79/CreateIndexGeneratorDB2.java:57-62 | a connected database whose version query throws is not supported |
| Db2Index.TestVersions | src/test/java/liquibase/ext/nfalco79/CreateIndexGeneratorDB2Test.java:48-54 | connected DB2 10.1 is refused and 10.5 accepted |
| Db2Index.ExcludeNullKeys | src/main/java/liquibase/ext/nfalco79/CreateIndexGeneratorDB2.java:69-76 | no base statement gives none; otherwise exactly one statement, the first base statement followed by " EXCLUDE NULL KEYS" |
| Db2Index.ExcludeNullKeysIgnoresTail | src/main/java/liquibase/ext/nfalco79/CreateIndexGeneratorDB2.java:74-75 | base statements after the first do not affect the result |
| ResizeDataType.GenerateStatements | src/main/java/liquibase/ext/nfalco79/ResizeDataTypeChange.java:39-47 | no statement on Oracle for a LOB type; otherwise exactly the inherited statements |
| ResizeDataType.Validate | src/main/java/liquibase/ext/nfalco79/ResizeDataTypeChange.java:59-68 | a null type throws; otherwise the inherited errors come first and unchanged, followed by "oldDataType must match newDataType" iff the types do not match, and nothing else |
| ResizeDataType.ResizeDataTypeChange.constructor | src/main/java/liquibase/ext/nfalco79/ResizeDataTypeChange.java:29-31 | oldDataType starts null, as does the inherited newDataType |
| ResizeDataType.ResizeDataTypeChange.SetOldDataType | src/main/java/liquibase/ext/nfalco79/ResizeDataTypeChange.java:54-56 | stores oldDataType and leaves newDataType |
| ResizeDataType.ResizeDataTypeChange.SetNewDataType | src/main/java/liquibase/ext/nfalco79/ResizeDataTypeChange.java:62 | the inherited newDataType setter stores the value getNewDataType reads, and leaves oldDataType |
| ResizeDataType.ResizeDataTypeChange.Statements | src/main/java/liquibase/ext/nfalco79/ResizeDataTypeChange.java:39-47 | generateStatements on the current newDataType |
| ResizeDataType.ResizeDataTypeChange.Errors | src/main/java/liquibase/ext/nfalco79/ResizeDataTypeChange.java:59-68 | the step-by-step validate computes Validate on the current fields |
| ResizeDataType.ParamsIgnoredByGenerate | src/main/java/liquibase/ext/nfalco79/ResizeDataTypeChange.java:41-42 | a parameter list on the new type does not change generateStatements |
| ResizeDataType.ParamsIgnoredByValidate | src/main/java/liquibase/ext/nfalco79/ResizeDataTypeChange.java:62-63 | a parameter list on the new type does not change validate |
| ResizeDataType.TypeMatchesItself | src/main/java/liquibase/ext/nfalco79/ResizeDataTypeChange.java:62-63 | a trimmed plain type name matches itself |
| ResizeDataType.TypeMatchesParameterised | src/main/java/liquibase/ext/nfalco79/ResizeDataTypeChange.java:62-63 | a plain name matches the same name with a parameter list |
| ResizeDataType.BooleanAgainstClobIsRejected | src/test/java/liquibase/ext/nfalco79/ResizeDataTypeChangeTest.java:27-33 | boolean against clob adds the mismatch error |
| ResizeDataType.ClobOnOracleIsSkipped | src/test/java/liquibase/ext/nfalco79/ResizeDataTypeChangeTest.java:36-41 | clob on Oracle generates nothing |
| ResizeDataType.ParameterisedBlobOnOracleIsSkipped | src/test/java/liquibase/ext/nfalco79/ResizeDataTypeChangeTest.java:44-49 | BLOB(1048576) on Oracle generates nothing |
| ResizeDataType.BlobAgainstParameterisedBlobIsAccepted | src/main/java/liquibase/ext/nfalco79/ResizeDataTypeChange.java:62-65 | BLOB against BLOB(1048576), the types of the parameterised-BLOB unit test, adds no error |
| NonNullPrecondition.NonNullConstraintExistsPrecondition.constructor | src/main/java/liquibase/ext/nfalco79/precondition/NonNullConstraintExistsPrecondition.java:44-47 | all four names start null |
| NonNullPrecondition.NonNullConstraintExistsPrecondition.SetTableName | src/main/java/liquibase/ext/nfalco79/precondition/NonNullConstraintExistsPrecondition.java:110-112 | stores trimToNull of the name, changes no other field, and keeps every stored name null or non-blank and trimmed |
| NonNullPrecondition.NonNullConstraintExistsPrecondition.SetColumnName | src/main/java/liquibase/ext/nfalco79/precondition/NonNullConstraintExistsPrecondition.java:118-120 | the same for columnName |
| NonNullPrecondition.NonNullConstraintExistsPrecondition.SetCatalogName | src/main/java/liquibase/ext/nfalco79/precondition/NonNullConstraintExistsPrecondition.java:126-128 | the same for catalogName |
| NonNullPrecondition.NonNullConstraintExistsPrecondition.SetSchemaName | src/main/java/liquibase/ext/nfalco79/precondition/NonNullConstraintExistsPrecondition.java:134-136 | the same for schemaName |
| NonNullPrecondition.NonNullConstraintExistsPrecondition.Validate | src/main/java/liquibase/ext/nfalco79/precondition/NonNullConstraintExistsPrecondition.java:60-66 | "tableName and columnName are required" is the only possible error, and it is reported iff both names are null, so one missing name passes |
| NonNullPrecondition.SetterNormalises | src/main/java/liquibase/ext/nfalco79/precondition/NonNullConstraintExistsPrecondition.java:110-112 | a blank or all-whitespace name is stored as null; any other name is stored trimmed |
| NonNullPrecondition.SetterIdempotent | src/main/java/liquibase/ext/nfalco79/precondition/NonNullConstraintExistsPrecondition.java:110-136 | storing a stored name again changes nothing |
| NonNullPrecondition.Check | src/main/java/liquibase/ext/nfalco79/precondition/NonNullConstraintExistsPrecondition.java:89-98 | a lookup exception is an error; a missing column fails with "Table or column <c> not found"; a nullable column fails with "Column <c> is nullable"; a column not nullable or of unknown nullability passes |
| NonNullPrecondition.FailureMessagesDiffer | src/main/java/liquibase/ext/nfalco79/precondition/NonNullConstraintExistsPrecondition.java:92-94 | the two failure messages differ whatever the example column |

## Left out

- Identifier escaping (`escapeTableName` and `escapeColumnName`) is a call into the host engine. The escaped table and column names are inputs to `CopyColumn.GenerateSql`.
- The inherited generators and validations are defined in the host engine. These are `CreateIndexGenerator.generateSql`, `ModifyDataTypeChange.generateStatements` and `ModifyDataTypeChange.validate`. Their results are inputs called `base`.
- Other host calls are also inputs:
  - snapshot creation, which is the `Snapshot` input of `NonNullPrecondition.Check`;
  - `correctObjectName`;
  - `Column.toString`, which is the `example` text;
  - the product name;
  - the major and minor version queries, which are the `VersionQuery` input.
- The `UnparsedSql` and `Sql` wrappers, and `getAffectedIndex`, are metadata. Statements are plain strings.
- `getName`, `getPriority`, `supports` of CopyColumnGenerator (which always returns true), `warn` and `getSerializedObjectNamespace` are constants with no decision logic.
- The `getConfirmationMessage` texts of ResizeDataTypeChange (`<table>.<column> datatype was resized`) and CopyColumnChange are built from the fields by concatenation and have no decision logic; they are not modelled.
- ClasspathNamespaceDetails depends on URL parsing by the host. The getters and setters of CopyColumnChange and CopyColumnStatement only hold data; the statement is a datatype with its seven fields.
- `Version.parseVersion`, and `VersionRange`'s `includes` and `toString`, are not part of this model's source. `versions.dfy` declares them minimally:
  - lexicographic order;
  - the inclusive or exclusive bound test;
  - dotted digits with missing components read as 0 and components after the third ignored;
  - an interval-bracket rendering.
  `RangeToString` and `VersionToString` are therefore assumptions. So is the failure text built from them.
- `parseVersion(null)` is assumed to give null. `check` calls it on a null `minVersion` without a guard, so this also is an assumption.
- VersionPrecondition.CheckVersion: that malformed version text ends in an unchecked exception (`Aborted`) is an assumption about `Version.parseVersion`, which is not modelled.
- VersionPrecondition.FailureMessage: `MessageFormat` is reduced to its effect on this pattern. `''` renders as one quote. Pattern metacharacters inside the product name are not interpreted.
- The version queries return Java `int`. The model takes them as `nat`, so a negative version is not represented.
- Case conversion is ASCII only. The locale-sensitive and non-ASCII mappings of `toUpperCase` and `equalsIgnoreCase` are not modelled. `trim` removes the characters up to U+0020, as Java does.
- CopyColumn.GenerateSql requires both types to be non-null. The Java method dereferences them and throws otherwise. `CopyColumn.Validate` reports that case.
- CopyColumn.Validate: the order of the errors is not stated; only which errors are present is.
- Db2Index.CreateIndexGeneratorDB2.Supports matches `instanceof DB2Database` by dialect tag. The model has no subclasses of the database classes.
