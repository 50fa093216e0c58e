/**
 * The eyepiece mapper of the dao package: the same BaseDAO configuration
 * as the data package's, without the column-index constants.
 */
module DaoEyepieceDao {
  import opened Wrappers
  import opened Storage
  import opened Mapping
  import opened Entities
  import opened DataBaseDao
  import ModelEyepiece
  import DataEyepieceDao

  const KeyAfov: string := "apparentFOV"
  const KeyFocalLength: string := "focalLength"
  const Table: string := "eyepieces"

  /** COLUMN_NAMES once the constructor has run. */
  const Columns: seq<string> := StandardColumns + [KeyAfov, KeyFocalLength]

  class EyepieceDao {
    /** The BaseDAO part of this object, configured by the constructor. */
    const base: BaseDao

    constructor (db: Database, returnKindTest: KindTest)
      ensures fresh(base) && base.Valid()
      ensures base.className == Some(ModelEyepiece.ClassName) && ClassForName(ModelEyepiece.ClassName) == Some(EyepieceClass)
      ensures base.table == Some(Table) && base.columns == Columns
      ensures base.db == db && base.returnKindTest == returnKindTest
    {
      var b := new BaseDao(db, returnKindTest);
      b.className := Some(ModelEyepiece.ClassName);
      b.table := Some(Table);
      b.AddColumn(KeyAfov);
      b.AddColumn(KeyFocalLength);
      base := b;
    }
  }

  /**
   * Both packages' eyepiece mappers configure the same table and columns,
   * which are distinct and each backed by an Eyepiece getter and setter.
   */
  lemma SameMapping()
    ensures Table == DataEyepieceDao.Table && Columns == DataEyepieceDao.Columns
    ensures forall i, j :: 0 <= i < j < |Columns| ==> Columns[i] != Columns[j]
    ensures Mapped(ModelEyepiece.Methods, ModelEyepiece.DefaultFields.Keys, Columns)
  {
    DataEyepieceDao.ColumnIndices();
    DataEyepieceDao.ColumnsMapped();
  }
}
