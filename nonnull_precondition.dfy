/** NonNullConstraintExistsPrecondition: run a change set only when a column exists and is not nullable. */
module NonNullPrecondition {
  import opened Wrappers
  import opened JavaString
  import opened Host

  const MissingNamesError := "tableName and columnName are required"

  /** The four name fields of the precondition. */
  datatype ColumnNames = ColumnNames(catalogName: Option<string>, schemaName: Option<string>,
                                     tableName: Option<string>, columnName: Option<string>)

  /** A name as its setter stores it: absent, or non-blank with nothing to trim. */
  predicate Normalised(n: Option<string>) {
    n.Some? ==> n.value != [] && IsTrimmed(n.value)
  }

  predicate AllNormalised(names: ColumnNames) {
    Normalised(names.catalogName) && Normalised(names.schemaName)
    && Normalised(names.tableName) && Normalised(names.columnName)
  }

  class NonNullConstraintExistsPrecondition {
    var catalogName: Option<string>
    var schemaName: Option<string>
    var tableName: Option<string>
    var columnName: Option<string>

    function Names(): ColumnNames
      reads this
    {
      ColumnNames(catalogName, schemaName, tableName, columnName)
    }

    /** Every field can only be set through a trim-to-null setter. */
    ghost predicate Valid()
      reads this
    {
      AllNormalised(Names())
    }

    constructor()
      ensures Names() == ColumnNames(None, None, None, None)
      ensures Valid()
    {
      catalogName := None;
      schemaName := None;
      tableName := None;
      columnName := None;
    }

    method SetTableName(n: Option<string>)
      requires Valid()
      modifies this
      ensures Valid()
      ensures Names() == old(Names()).(tableName := TrimToNull(n))
    {
      tableName := TrimToNull(n);
    }

    method SetColumnName(n: Option<string>)
      requires Valid()
      modifies this
      ensures Valid()
      ensures Names() == old(Names()).(columnName := TrimToNull(n))
    {
      columnName := TrimToNull(n);
    }

    method SetCatalogName(n: Option<string>)
      requires Valid()
      modifies this
      ensures Valid()
      ensures Names() == old(Names()).(catalogName := TrimToNull(n))
    {
      catalogName := TrimToNull(n);
    }

    method SetSchemaName(n: Option<string>)
      requires Valid()
      modifies this
      ensures Valid()
      ensures Names() == old(Names()).(schemaName := TrimToNull(n))
    {
      schemaName := TrimToNull(n);
    }

    /** validate: an error only when both the table and the column name are missing. */
    method Validate() returns (errors: seq<string>)
      ensures errors == [] || errors == [MissingNamesError]
      ensures errors != [] <==> tableName.None? && columnName.None?
    {
      errors := [];
      if tableName.None? && columnName.None? {
        errors := errors + [MissingNamesError];
      }
    }
  }

  /** A blank name given to a setter is stored as null; any other name is stored trimmed. */
  lemma SetterNormalises(n: string)
    ensures TrimToNull(Some(n)) == None <==> AllSpaces(n)
    ensures !AllSpaces(n) ==> TrimToNull(Some(n)) == Some(Trim(n)) && Normalised(TrimToNull(Some(n)))
  {
  }

  /** Setting a name twice is the same as setting it once: stored names are fixed points of trim-to-null. */
  lemma SetterIdempotent(n: Option<string>)
    ensures TrimToNull(TrimToNull(n)) == TrimToNull(n)
  {
    if TrimToNull(n).Some? {
      TrimTrimmed(TrimToNull(n).value);
    }
  }

  /** What the snapshot lookup for the example column gives. */
  datatype Snapshot =
    | NotFound                        // createSnapshot returned null
    | Found(nullable: Option<bool>)   // the column, with its isNullable() value (null when unknown)
    | SnapshotFailed                  // DatabaseException or InvalidExampleException

  function NotFoundMessage(example: string): string {
    "Table or column " + example + " not found"
  }

  function NullableMessage(example: string): string {
    "Column " + example + " is nullable"
  }

  /**
   * check, given the snapshot outcome and the rendering of the example column: a missing column
   * and a nullable column fail, a lookup error is an error, and a column known not to be nullable
   * or of unknown nullability passes.
   */
  function Check(snapshot: Snapshot, example: string): (v: Verdict)
    ensures v.Errored? <==> snapshot.SnapshotFailed?
    ensures v.Passed? <==> snapshot.Found? && snapshot.nullable != Some(true)
    ensures snapshot.NotFound? ==> v == Failed(NotFoundMessage(example))
    ensures snapshot == Found(Some(true)) ==> v == Failed(NullableMessage(example))
    ensures !v.Aborted?
  {
    match snapshot
    case NotFound => Failed(NotFoundMessage(example))
    case Found(nullable) => if nullable == Some(true) then Failed(NullableMessage(example)) else Passed
    case SnapshotFailed => Errored
  }

  /** The two failure messages can be told apart, whatever the example. */
  lemma FailureMessagesDiffer(example: string, example': string)
    ensures NotFoundMessage(example) != NullableMessage(example')
  {
    assert NotFoundMessage(example)[0] == 'T' && NullableMessage(example')[0] == 'C';
  }
}
