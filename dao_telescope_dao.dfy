/**
 * The telescope mapper of the dao package: the same BaseDAO configuration
 * as the data package's, without the column-index constants.
 */
module DaoTelescopeDao {
  import opened Wrappers
  import opened Storage
  import opened Mapping
  import opened Entities
  import opened DataBaseDao
  import ModelTelescope
  import DataTelescopeDao

  const KeyAperture: string := "aperture"
  const KeyFocalLength: string := "focalLength"
  const Table: string := "telescopes"

  /** COLUMN_NAMES once the constructor has run. */
  const Columns: seq<string> := StandardColumns + [KeyAperture, KeyFocalLength]

  class TelescopeDao {
    /** The BaseDAO part of this object, configured by the constructor. */
    const base: BaseDao

    constructor (db: Database, returnKindTest: KindTest)
      ensures fresh(base) && base.Valid()
      ensures base.className == Some(ModelTelescope.ClassName) && ClassForName(ModelTelescope.ClassName) == Some(TelescopeClass)
      ensures base.table == Some(Table) && base.columns == Columns
      ensures base.db == db && base.returnKindTest == returnKindTest
    {
      var b := new BaseDao(db, returnKindTest);
      b.className := Some(ModelTelescope.ClassName);
      b.table := Some(Table);
      b.AddColumn(KeyAperture);
      b.AddColumn(KeyFocalLength);
      base := b;
    }
  }

  /**
   * Both packages' telescope mappers configure the same table and columns,
   * which are distinct and each backed by a Telescope getter and setter.
   */
  lemma SameMapping()
    ensures Table == DataTelescopeDao.Table && Columns == DataTelescopeDao.Columns
    ensures forall i, j :: 0 <= i < j < |Columns| ==> Columns[i] != Columns[j]
    ensures Mapped(ModelTelescope.Methods, ModelTelescope.DefaultFields.Keys, Columns)
  {
    DataTelescopeDao.ColumnIndices();
    DataTelescopeDao.ColumnsMapped();
  }
}
