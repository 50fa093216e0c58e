/**
 * The eyepiece mapper of the data package: BaseDAO configured for the
 * "eyepieces" table, with the two extra columns apparentFOV and focalLength
 * and the positions they take in the column list.
 */
module DataEyepieceDao {
  import opened Wrappers
  import opened Reflection
  import opened Storage
  import opened Mapping
  import opened Entities
  import opened DataBaseDao
  import ModelEyepiece

  const KeyAfov: string := "apparentFOV"
  const AfovColumn: nat := 2
  const KeyFocalLength: string := "focalLength"
  const FocalLengthColumn: nat := 3
  const Table: string := "eyepieces"

  /** COLUMN_NAMES once the constructor has run. */
  const Columns: seq<string> := StandardColumns + [KeyAfov, KeyFocalLength]

  /**
   * The index constants name the positions at which the constructor
   * appends their columns, and no column is listed twice.
   */
  lemma ColumnIndices()
    ensures ColumnsValid(Columns) && |Columns| == 4
    ensures Columns[AfovColumn] == KeyAfov && Columns[FocalLengthColumn] == KeyFocalLength
    ensures forall i, j :: 0 <= i < j < |Columns| ==> Columns[i] != Columns[j]
  {
  }

  class EyepieceDao {
    /** The BaseDAO part of this object, configured by the constructor. */
    const base: BaseDao

    constructor (db: Database, returnKindTest: KindTest)
      ensures fresh(base) && base.Valid()
      ensures base.className == Some(ModelEyepiece.ClassName) && ClassForName(ModelEyepiece.ClassName) == Some(EyepieceClass)
      ensures base.table == Some(Table) && base.columns == Columns
      ensures base.db == db && base.returnKindTest == returnKindTest
    {
      var b := new BaseDao(db, returnKindTest);
      b.className := Some(ModelEyepiece.ClassName);
      b.table := Some(Table);
      b.AddColumn(KeyAfov);
      b.AddColumn(KeyFocalLength);
      base := b;
    }
  }

  /** Every column has a getter and a setter of one type on Eyepiece. */
  lemma ColumnsMirrored()
    ensures forall i :: 0 <= i < |Columns| ==> Mirrored(ModelEyepiece.Methods, Columns[i])
  {
    forall i | 0 <= i < |Columns|
      ensures Mirrored(ModelEyepiece.Methods, Columns[i])
    {
      ModelEyepiece.FieldsMirrored(Columns[i]);
    }
  }

  /**
   * Every eyepiece field is one of this mapper's columns, and every column
   * has a getter and a setter of one type on Eyepiece.
   */
  lemma ColumnsMapped()
    ensures Mapped(ModelEyepiece.Methods, ModelEyepiece.DefaultFields.Keys, Columns)
  {
    ModelEyepiece.MethodsNoOverloads();
    ColumnsMirrored();
  }

  /**
   * With the intended return-type test, the state of an eyepiece whose name
   * is not null, written through this mapper's columns and read back from a
   * row that echoes what was written, is rebuilt field for field.
   */
  lemma StoredEyepieceReadsBack(fields: map<string, Value>, row: Row)
    requires fields.Keys == ModelEyepiece.DefaultFields.Keys && WellFormed(ModelEyepiece.Methods, fields)
    requires NoNullText(fields)
    requires Echoes(row, ContentFor(ModelEyepiece.Methods, fields, Columns, Intended))
    ensures Populate(ModelEyepiece.Methods, ModelEyepiece.DefaultFields, Columns, row) == fields
  {
    ModelEyepiece.MethodsWellFormed(0, None, 0, 0);
    ColumnsMapped();
    RoundTrip(ModelEyepiece.Methods, fields, ModelEyepiece.DefaultFields, Columns, row);
  }

  /**
   * Stored by this mapper's insert (with the intended return-type test) and
   * read back from the row the table holds, every eyepiece whose name is not
   * null is rebuilt exactly, whatever its name spells.
   */
  lemma EyepieceSurvivesStorage(fields: map<string, Value>)
    requires fields.Keys == ModelEyepiece.DefaultFields.Keys && WellFormed(ModelEyepiece.Methods, fields)
    requires NoNullText(fields)
    ensures Populate(ModelEyepiece.Methods, ModelEyepiece.DefaultFields, Columns,
                     EchoedRow(ContentFor(ModelEyepiece.Methods, fields, Columns, Intended))) == fields
  {
    StoredEyepieceReadsBack(fields, EchoedRow(ContentFor(ModelEyepiece.Methods, fields, Columns, Intended)));
  }
}
