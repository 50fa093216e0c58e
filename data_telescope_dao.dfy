/**
 * The telescope mapper of the data package: BaseDAO configured for the
 * "telescopes" table, with the two extra columns aperture and focalLength
 * and the positions they take in the column list.
 */
module DataTelescopeDao {
  import opened Wrappers
  import opened Reflection
  import opened Storage
  import opened Mapping
  import opened Entities
  import opened DataBaseDao
  import ModelTelescope

  const KeyAperture: string := "aperture"
  const ApertureColumn: nat := 2
  const KeyFocalLength: string := "focalLength"
  const FocalLengthColumn: nat := 3
  const Table: string := "telescopes"

  /** COLUMN_NAMES once the constructor has run. */
  const Columns: seq<string> := StandardColumns + [KeyAperture, KeyFocalLength]

  /**
   * The index constants name the positions at which the constructor
   * appends their columns, and no column is listed twice.
   */
  lemma ColumnIndices()
    ensures ColumnsValid(Columns) && |Columns| == 4
    ensures Columns[ApertureColumn] == KeyAperture && Columns[FocalLengthColumn] == KeyFocalLength
    ensures forall i, j :: 0 <= i < j < |Columns| ==> Columns[i] != Columns[j]
  {
  }

  class TelescopeDao {
    /** The BaseDAO part of this object, configured by the constructor. */
    const base: BaseDao

    constructor (db: Database, returnKindTest: KindTest)
      ensures fresh(base) && base.Valid()
      ensures base.className == Some(ModelTelescope.ClassName) && ClassForName(ModelTelescope.ClassName) == Some(TelescopeClass)
      ensures base.table == Some(Table) && base.columns == Columns
      ensures base.db == db && base.returnKindTest == returnKindTest
    {
      var b := new BaseDao(db, returnKindTest);
      b.className := Some(ModelTelescope.ClassName);
      b.table := Some(Table);
      b.AddColumn(KeyAperture);
      b.AddColumn(KeyFocalLength);
      base := b;
    }
  }

  /** Every column has a getter and a setter of one type on Telescope. */
  lemma ColumnsMirrored()
    ensures forall i :: 0 <= i < |Columns| ==> Mirrored(ModelTelescope.Methods, Columns[i])
  {
    forall i | 0 <= i < |Columns|
      ensures Mirrored(ModelTelescope.Methods, Columns[i])
    {
      ModelTelescope.FieldsMirrored(Columns[i]);
    }
  }

  /**
   * Every telescope field is one of this mapper's columns, and every column
   * has a getter and a setter of one type on Telescope.
   */
  lemma ColumnsMapped()
    ensures Mapped(ModelTelescope.Methods, ModelTelescope.DefaultFields.Keys, Columns)
  {
    ModelTelescope.MethodsNoOverloads();
    ColumnsMirrored();
  }

  /**
   * With the intended return-type test, the state of a telescope whose name
   * is not null, written through this mapper's columns and read back from a
   * row that echoes what was written, is rebuilt field for field.
   */
  lemma StoredTelescopeReadsBack(fields: map<string, Value>, row: Row)
    requires fields.Keys == ModelTelescope.DefaultFields.Keys && WellFormed(ModelTelescope.Methods, fields)
    requires NoNullText(fields)
    requires Echoes(row, ContentFor(ModelTelescope.Methods, fields, Columns, Intended))
    ensures Populate(ModelTelescope.Methods, ModelTelescope.DefaultFields, Columns, row) == fields
  {
    ModelTelescope.MethodsWellFormed(0, None, 0, 0);
    ColumnsMapped();
    RoundTrip(ModelTelescope.Methods, fields, ModelTelescope.DefaultFields, Columns, row);
  }

  /**
   * Stored by this mapper's insert (with the intended return-type test) and
   * read back from the row the table holds, every telescope whose name is not
   * null is rebuilt exactly, whatever its name spells.
   */
  lemma TelescopeSurvivesStorage(fields: map<string, Value>)
    requires fields.Keys == ModelTelescope.DefaultFields.Keys && WellFormed(ModelTelescope.Methods, fields)
    requires NoNullText(fields)
    ensures Populate(ModelTelescope.Methods, ModelTelescope.DefaultFields, Columns,
                     EchoedRow(ContentFor(ModelTelescope.Methods, fields, Columns, Intended))) == fields
  {
    StoredTelescopeReadsBack(fields, EchoedRow(ContentFor(ModelTelescope.Methods, fields, Columns, Intended)));
  }

  /** A telescope whose name spells a number beyond int range still reads back exactly. */
  lemma NumericNameReadsBack()
    ensures var fields := ModelTelescope.FieldMap(1, Some("3000000000"), 1200, 203);
      Populate(ModelTelescope.Methods, ModelTelescope.DefaultFields, Columns,
               EchoedRow(ContentFor(ModelTelescope.Methods, fields, Columns, Intended))) == fields
  {
    ModelTelescope.MethodsWellFormed(1, Some("3000000000"), 1200, 203);
    ModelTelescope.NullTextIsName(1, Some("3000000000"), 1200, 203);
    TelescopeSurvivesStorage(ModelTelescope.FieldMap(1, Some("3000000000"), 1200, 203));
  }
}
