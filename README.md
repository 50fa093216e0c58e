# EyepieceCalc: the reflective table-row mapper

EyepieceCalc is an Android calculator for telescope and eyepiece combinations.
Its persistence layer is a generic mapper, `BaseDAO<T>`, between model objects and
database rows. It keeps an ordered list of column names that always starts with `id`
and `name`. It derives each column's getter and setter names by upper-casing the
column's first letter after `get`/`set`. It writes an object by putting each column's
non-null value into a value set. It rebuilds an object from a row through its setters,
trying a `String` setter first and then an `int` setter. Four small subclasses
configure the mapper: `TelescopeDAO` and `EyepieceDAO`, each in the `data` and `dao`
packages. They set the table name, the model class name and two extra columns. The
`data` copies also name the positions of those columns.

The model, module by module:

- `Reflection`: Java reflection as an explicit table of public method signatures.
  `Class.getMethod` is a search of that table. `Int32`/`Int64` are Java `int`/`long`.
- `Naming`: getter and setter name derivation.
- `Decimal`: `Integer.toString`/`Long.toString`, with a parser as its partner.
- `Storage`: the database as the mapper sees it. A `Database` answers through two
  arbitrary reply functions and records every request and every cursor it hands out.
  A `Cursor` has rows, a position and an open flag.
- `Mapping`: the column logic over values. The state of an object is the map from its
  field names to their values.
  - `ValueForColumn` and `ContentFor` cover writing.
  - `ProbeSetter` and `Populate` cover reading.
  - The lemmas prove the filter, the probe order, the skips and the round trip.
- `ModelTelescope`, `ModelEyepiece`: the two model classes, as classes whose setters
  update fields in place, together with their method tables.
- `Entities`: the two classes seen through reflection. `Class.forName`,
  `Method.invoke`, and a new instance of a class.
- `DataBaseDao`: the class `BaseDao`.
  - Its fields are `className`, `table` and `columns`, which the configuring
    constructors assign and append to.
  - Its methods mirror the source's loops with invariants, and are proved against the
    `Mapping` functions.
- `DataTelescopeDao`, `DataEyepieceDao`, `DaoTelescopeDao`, `DaoEyepieceDao`: the four
  configuring subclasses.

Java's single inheritance `XDAO extends BaseDAO<X>` is modelled by composition: each
subclass object holds the `BaseDao` it configures in its constructor. The return-type
test inside `getValueForColumn` is a parameter of the mapper (`KindTest`). `AsWritten`
is the code as it stands and `Intended` is the evident intent (see Findings). Each
lemma says which one it assumes.

`BaseDAO` itself creates no schema and registers with nothing: it has no
`onCreate`/`onUpgrade` and no participant list, so the model has none either.

## Model

| member | source | states |
|---|---|---|
| Naming.UpperAscii | src/com/jotabout/eyepiececalc/data/BaseDAO.java:211 | upper-casing maps exactly the ASCII lower-case letters to their capitals (code point minus 32) and leaves every other character unchanged |
| Naming.AccessorNameShape | src/com/jotabout/eyepiececalc/data/BaseDAO.java:211 | a derived getter or setter name is the prefix `get`/`set`, then the column's first character upper-cased, then the rest of the column unchanged |
| Naming.AccessorCollision | src/com/jotabout/eyepiececalc/data/BaseDAO.java:259 | two columns share a getter exactly when they share a setter, and that happens exactly when they differ at most in the case of their first letter |
| Naming.GetterIsNotSetter | src/com/jotabout/eyepiececalc/data/BaseDAO.java:259 | no derived getter name is ever a derived setter name |
| Decimal.ParseRender | src/com/jotabout/eyepiececalc/data/BaseDAO.java:226 | the decimal text written for an int reads back as the same int |
| Decimal.RenderInjective | src/com/jotabout/eyepiececalc/data/BaseDAO.java:112 | two numbers have the same decimal text exactly when they are equal |
| Reflection.GetMethod | src/com/jotabout/eyepiececalc/data/BaseDAO.java:214 | getMethod yields a method of the class with exactly the given name and parameter list, and yields none only when the class has no such method |
| Reflection.GetMethodByName | src/com/jotabout/eyepiececalc/data/BaseDAO.java:265 | in a class without overloads, getMethod by a method's name succeeds exactly when the parameter list matches, and then finds that method |
| Mapping.ReturnKind | src/com/jotabout/eyepiececalc/data/BaseDAO.java:220-227 | as written the return-type test classifies nothing as String or int; the intended test classifies the getter's own return type |
| Mapping.ValueForColumn | src/com/jotabout/eyepiececalc/data/BaseDAO.java:207-237 | getValueForColumn is null when there is no zero-argument getter of the derived name, and always null as written; a non-null value is the getter's String, or the decimal text of its int |
| Mapping.ContentForStep | src/com/jotabout/eyepiececalc/data/BaseDAO.java:82-87 | one more column puts its value into the value set when it is not null, and otherwise leaves the set unchanged |
| Mapping.ContentForKeys | src/com/jotabout/eyepiececalc/data/BaseDAO.java:105-110 | a name is a key of the value set exactly when it is a column whose value is not null, and its entry is that value |
| Mapping.ContentKeysAreColumns | src/com/jotabout/eyepiececalc/data/BaseDAO.java:82-87 | every key of the value set is one of the columns |
| Mapping.ContentAsWrittenEmpty | src/com/jotabout/eyepiececalc/data/BaseDAO.java:223-227 | as written, every insert and update sends an empty value set, whatever the object holds |
| Mapping.ProbeSetter | src/com/jotabout/eyepiececalc/data/BaseDAO.java:259-275 | the probed setter has the derived setter name and takes one String or one int; there is none exactly when neither set<Col>(String) nor set<Col>(int) exists |
| Mapping.ProbeTextWins | src/com/jotabout/eyepiececalc/data/BaseDAO.java:262-275 | a String setter is chosen exactly when one exists; an int setter is chosen exactly when no String setter exists and an int setter does |
| Mapping.ReadCell | src/com/jotabout/eyepiececalc/data/BaseDAO.java:279-288 | the cell is read with getString for a String setter and with getInt for an int setter, and the value has the setter's type |
| Mapping.PopulateStep | src/com/jotabout/eyepiececalc/data/BaseDAO.java:257-294 | one more column applies its probed setter to the cell read with the setter's type; a column without a setter changes nothing |
| Mapping.PopulateWellFormed | src/com/jotabout/eyepiececalc/data/BaseDAO.java:277-293 | rebuilding keeps the object's shape: the same fields, each holding a value of its accessors' type |
| Mapping.PopulateWithoutSetters | src/com/jotabout/eyepiececalc/data/BaseDAO.java:254-275 | for any method table in which no column's probe finds a setter, the object comes back exactly as it went in |
| Mapping.PopulateWithoutSetterNames | src/com/jotabout/eyepiececalc/data/BaseDAO.java:254-275 | an object of a class with no public method whose name starts with "set", such as java.lang.Class, comes back exactly as it went in, whatever its getters and whatever the columns |
| Mapping.MirroredResolves | src/com/jotabout/eyepiececalc/data/BaseDAO.java:211-214 | when a column has a getter and a setter of one type, and nothing is overloaded, both names resolve; both reach the column's field; and the probed setter's type is the getter's return type |
| Mapping.MirroredKind | src/com/jotabout/eyepiececalc/data/BaseDAO.java:262-275 | such a column is probed with the type of the field it names |
| Mapping.PopulateMirrored | src/com/jotabout/eyepiececalc/data/BaseDAO.java:277-288 | after rebuilding, a mirrored column's field holds its cell read with the probed type, and a field that is not a column keeps its starting value |
| Mapping.EchoedRow | src/com/jotabout/eyepiececalc/data/BaseDAO.java:279-288 | every value set has a row that echoes it: the written text for getString and, where the text spells an int, that int for getInt; unwritten columns read as null text |
| Mapping.RoundTripField | src/com/jotabout/eyepiececalc/data/BaseDAO.java:284-287 | with the intended test, one field written as text and read back from a row echoing that text is restored |
| Mapping.RoundTrip | src/com/jotabout/eyepiececalc/data/BaseDAO.java:248-296 | with the intended test, an object with no null text field is rebuilt exactly, field for field, from any starting object of its shape. This holds when every field is a column with a getter and a setter of one type, and the row echoes what the write put |
| Storage.Cursor.MoveToFirst | src/com/jotabout/eyepiececalc/data/BaseDAO.java:150 | moveToFirst goes to row 0 and reports whether there is a row |
| Storage.Cursor.MoveToNext | src/com/jotabout/eyepiececalc/data/BaseDAO.java:160 | moveToNext advances one row, stopping just after the last, and reports whether it is on a row |
| Storage.Cursor.Close | src/com/jotabout/eyepiececalc/data/BaseDAO.java:164 | close marks the cursor closed |
| Storage.Database.Insert | src/com/jotabout/eyepiececalc/data/BaseDAO.java:90 | insert records its request and returns what the database reports for it |
| Storage.Database.Update | src/com/jotabout/eyepiececalc/data/BaseDAO.java:113 | update records its request and returns the affected-row count the database reports |
| Storage.Database.Delete | src/com/jotabout/eyepiececalc/data/BaseDAO.java:127 | delete records its request and returns the deleted-row count the database reports |
| Storage.Database.Query | src/com/jotabout/eyepiececalc/data/BaseDAO.java:180-183 | query records its request and the new cursor, which is open, before the first row, over the rows the database returns |
| Entities.ClassForName | src/com/jotabout/eyepiececalc/data/BaseDAO.java:254 | Class.forName finds Telescope exactly for its qualified name and Eyepiece exactly for its own |
| Entities.DefaultFieldsOf | src/com/jotabout/eyepiececalc/model/Telescope.java:19-21 | a default-constructed instance agrees with its class's method table |
| Entities.Entity.Fields | src/com/jotabout/eyepiececalc/data/BaseDAO.java:214 | an object's state always matches the method table of its class |
| Entities.Entity.Call | src/com/jotabout/eyepiececalc/data/BaseDAO.java:224-226 | invoking a getter yields the value of the field it reads, of its declared return type |
| Entities.Entity.Invoke | src/com/jotabout/eyepiececalc/data/BaseDAO.java:284-292 | invoking a setter with an argument of the wrong type throws and changes nothing; otherwise only the setter's field changes |
| Entities.NewInstance | src/com/jotabout/eyepiececalc/data/BaseDAO.java:254 | a new object of the class, default-constructed |
| ModelTelescope.MethodsWellFormed | src/com/jotabout/eyepiececalc/model/Telescope.java:35-77 | every Telescope method is a getter or setter of one of its four fields, of that field's type |
| ModelTelescope.NullTextIsName | src/com/jotabout/eyepiececalc/model/Telescope.java:15 | a telescope has no null text field exactly when its name is set, and it always has the same four fields |
| ModelTelescope.MethodsNoOverloads | src/com/jotabout/eyepiececalc/model/Telescope.java:35-77 | Telescope declares no two public methods of the same name |
| ModelTelescope.AccessorsMirrored | src/com/jotabout/eyepiececalc/model/Telescope.java:35-77 | id, name, focalLength and aperture each have a getter and a setter under the derived names, of one type, reaching that field |
| ModelTelescope.FieldsMirrored | src/com/jotabout/eyepiececalc/model/Telescope.java:14-17 | every field of a telescope has such accessors |
| ModelTelescope.ProbedKinds | src/com/jotabout/eyepiececalc/model/Telescope.java:39-75 | under the String-first probe name resolves to text and id, focalLength and aperture to int: each field to its own type |
| ModelTelescope.Telescope.constructor | src/com/jotabout/eyepiececalc/model/Telescope.java:19-21 | a new telescope has id, focalLength and aperture 0 and a null name |
| ModelTelescope.Telescope.Of | src/com/jotabout/eyepiececalc/model/Telescope.java:23-29 | after the four-argument constructor each getter returns its argument |
| ModelTelescope.Telescope.SetId | src/com/jotabout/eyepiececalc/model/Telescope.java:39-41 | getId returns the value set; the other three fields are unchanged |
| ModelTelescope.Telescope.SetName | src/com/jotabout/eyepiececalc/model/Telescope.java:51-53 | getName returns the value set; the other three fields are unchanged |
| ModelTelescope.Telescope.SetFocalLength | src/com/jotabout/eyepiececalc/model/Telescope.java:63-65 | getFocalLength returns the value set; the other three fields are unchanged |
| ModelTelescope.Telescope.SetAperture | src/com/jotabout/eyepiececalc/model/Telescope.java:75-77 | getAperture returns the value set; the other three fields are unchanged |
| ModelTelescope.Telescope.Call | src/com/jotabout/eyepiececalc/model/Telescope.java:35-73 | a getter returns its field, of its declared type |
| ModelTelescope.Telescope.Invoke | src/com/jotabout/eyepiececalc/model/Telescope.java:39-77 | a setter with a wrong-typed argument throws and changes nothing; otherwise it changes its own field only |
| ModelEyepiece.MethodsWellFormed | src/com/jotabout/eyepiececalc/model/Eyepiece.java:33-79 | every Eyepiece method is a getter or setter of one of its four fields, of that field's type |
| ModelEyepiece.NullTextIsName | src/com/jotabout/eyepiececalc/model/Eyepiece.java:12 | an eyepiece has no null text field exactly when its name is set, and it always has the same four fields |
| ModelEyepiece.MethodsNoOverloads | src/com/jotabout/eyepiececalc/model/Eyepiece.java:33-79 | Eyepiece declares no two public methods of the same name |
| ModelEyepiece.AccessorsMirrored | src/com/jotabout/eyepiececalc/model/Eyepiece.java:33-79 | name, focalLength, apparentFOV and id each have a getter and a setter under the derived names, of one type, reaching that field |
| ModelEyepiece.FieldsMirrored | src/com/jotabout/eyepiececalc/model/Eyepiece.java:11-14 | every field of an eyepiece has such accessors |
| ModelEyepiece.ProbedKinds | src/com/jotabout/eyepiececalc/model/Eyepiece.java:37-77 | under the String-first probe name resolves to text and id, focalLength and apparentFOV to int: each field to its own type |
| ModelEyepiece.Eyepiece.constructor | src/com/jotabout/eyepiececalc/model/Eyepiece.java:16-18 | a new eyepiece has id, focalLength and apparentFOV 0 and a null name |
| ModelEyepiece.Eyepiece.Of | src/com/jotabout/eyepiececalc/model/Eyepiece.java:20-26 | after the four-argument constructor each getter returns its argument |
| ModelEyepiece.Eyepiece.SetName | src/com/jotabout/eyepiececalc/model/Eyepiece.java:37-39 | getName returns the value set; the other three fields are unchanged |
| ModelEyepiece.Eyepiece.SetFocalLength | src/com/jotabout/eyepiececalc/model/Eyepiece.java:50-52 | getFocalLength returns the value set; the other three fields are unchanged |
| ModelEyepiece.Eyepiece.SetApparentFOV | src/com/jotabout/eyepiececalc/model/Eyepiece.java:64-66 | getApparentFOV returns the value set; the other three fields are unchanged |
| ModelEyepiece.Eyepiece.SetId | src/com/jotabout/eyepiececalc/model/Eyepiece.java:77-79 | getId returns the value set; the other three fields are unchanged |
| ModelEyepiece.Eyepiece.Call | src/com/jotabout/eyepiececalc/model/Eyepiece.java:33-75 | a getter returns its field, of its declared type |
| ModelEyepiece.Eyepiece.Invoke | src/com/jotabout/eyepiececalc/model/Eyepiece.java:37-79 | a setter with a wrong-typed argument throws and changes nothing; otherwise it changes its own field only |
| DataBaseDao.WhereIdInjective | src/com/jotabout/eyepiececalc/data/BaseDAO.java:112 | the selection "id=" + rowIndex names exactly one row index |
| DataBaseDao.BaseDao.constructor | src/com/jotabout/eyepiececalc/data/BaseDAO.java:63-71 | the column list starts as exactly [id, name]; class and table are unset |
| DataBaseDao.BaseDao.AddColumn | src/com/jotabout/eyepiececalc/data/BaseDAO.java:54-57 | a column is only ever appended, so the list keeps its [id, name] prefix |
| DataBaseDao.BaseDao.GetValueForColumn | src/com/jotabout/eyepiececalc/data/BaseDAO.java:207-237 | the method's result is ValueForColumn of the object's class and state |
| DataBaseDao.BaseDao.ContentValues | src/com/jotabout/eyepiececalc/data/BaseDAO.java:79-87 | the loop builds exactly the value set ContentFor specifies |
| DataBaseDao.BaseDao.InsertEntry | src/com/jotabout/eyepiececalc/data/BaseDAO.java:78-91 | one insert of that value set into the table, with the insert's result returned unchanged |
| DataBaseDao.BaseDao.UpdateEntry | src/com/jotabout/eyepiececalc/data/BaseDAO.java:101-118 | one update of that value set filtered by "id=" + rowIndex; true exactly when more than zero rows were affected |
| DataBaseDao.BaseDao.RemoveEntry | src/com/jotabout/eyepiececalc/data/BaseDAO.java:126-128 | one delete filtered by "id=" + rowIndex; true exactly when more than zero rows were deleted |
| DataBaseDao.BaseDao.GetAllEntries | src/com/jotabout/eyepiececalc/data/BaseDAO.java:137-139 | one query of all rows over the column list; the new cursor is open and left to the caller |
| DataBaseDao.BaseDao.SetColumn | src/com/jotabout/eyepiececalc/data/BaseDAO.java:259-293 | one column: the probed setter is applied to the cell read with its type; without a setter nothing changes |
| DataBaseDao.BaseDao.CreateObjectFromCursor | src/com/jotabout/eyepiececalc/data/BaseDAO.java:248-296 | there is a result exactly when the class is found; it is a new instance of that class whose state is Populate of the current row |
| DataBaseDao.BaseDao.CollectEntries | src/com/jotabout/eyepiececalc/data/BaseDAO.java:150-160 | the do/while loop visits every row once, in order, and keeps one rebuilt entity per row, each a distinct new object, or none when the class is not found |
| DataBaseDao.BaseDao.CollectRow | src/com/jotabout/eyepiececalc/data/BaseDAO.java:152-159 | one pass keeps the entity rebuilt from the current row, unless rebuilding failed |
| DataBaseDao.BaseDao.GetAllEntriesAsList | src/com/jotabout/eyepiececalc/data/BaseDAO.java:144-169 | one query; the list has one new entity per row in cursor order, no two sharing an object, each rebuilt from its row, and is empty when the class is not found; the cursor is closed |
| DataBaseDao.BaseDao.GetEntry | src/com/jotabout/eyepiececalc/data/BaseDAO.java:174-197 | one query by "id=" + rowIndex; a result exactly when there is a row and the class is found, rebuilt from the first row only; the cursor is closed |
| DataTelescopeDao.ColumnIndices | src/com/jotabout/eyepiececalc/data/TelescopeDAO.java:14-18 | APERTURE_COLUMN 2 and FOCAL_LENGTH_COLUMN 3 are the positions of aperture and focalLength; the list keeps the [id, name] prefix and has no duplicate |
| DataTelescopeDao.TelescopeDao.constructor | src/com/jotabout/eyepiececalc/data/TelescopeDAO.java:20-31 | the columns are exactly [id, name, aperture, focalLength], the table "telescopes", the class Telescope's qualified name, which Class.forName finds |
| DataTelescopeDao.ColumnsMirrored | src/com/jotabout/eyepiececalc/data/TelescopeDAO.java:29-30 | every column has a getter and a setter of one type on Telescope |
| DataTelescopeDao.ColumnsMapped | src/com/jotabout/eyepiececalc/data/TelescopeDAO.java:14-17 | the columns meet RoundTrip's conditions for Telescope: every field is a column, and every column is mirrored |
| DataTelescopeDao.TelescopeSurvivesStorage | src/com/jotabout/eyepiececalc/data/TelescopeDAO.java:20-31 | with the intended test, every telescope with a name, inserted and read back from the row that stores the insert's values, is rebuilt exactly |
| DataTelescopeDao.NumericNameReadsBack | src/com/jotabout/eyepiececalc/data/BaseDAO.java:278-283 | a telescope named "3000000000", a number beyond int range, still reads back exactly, because its name is read with getString |
| DataTelescopeDao.StoredTelescopeReadsBack | src/com/jotabout/eyepiececalc/data/TelescopeDAO.java:20-31 | with the intended test, a telescope with a name written through this mapper is rebuilt exactly from a row echoing the write |
| DataEyepieceDao.ColumnIndices | src/com/jotabout/eyepiececalc/data/EyepieceDAO.java:14-18 | AFOV_COLUMN 2 and FOCAL_LENGTH_COLUMN 3 are the positions of apparentFOV and focalLength; the list keeps the [id, name] prefix and has no duplicate |
| DataEyepieceDao.EyepieceDao.constructor | src/com/jotabout/eyepiececalc/data/EyepieceDAO.java:20-31 | the columns are exactly [id, name, apparentFOV, focalLength], the table "eyepieces", the class Eyepiece's qualified name, which Class.forName finds |
| DataEyepieceDao.ColumnsMirrored | src/com/jotabout/eyepiececalc/data/EyepieceDAO.java:29-30 | every column has a getter and a setter of one type on Eyepiece |
| DataEyepieceDao.ColumnsMapped | src/com/jotabout/eyepiececalc/data/EyepieceDAO.java:14-17 | the columns meet RoundTrip's conditions for Eyepiece: every field is a column, and every column is mirrored |
| DataEyepieceDao.EyepieceSurvivesStorage | src/com/jotabout/eyepiececalc/data/EyepieceDAO.java:20-31 | with the intended test, every eyepiece with a name, inserted and read back from the row that stores the insert's values, is rebuilt exactly |
| DataEyepieceDao.StoredEyepieceReadsBack | src/com/jotabout/eyepiececalc/data/EyepieceDAO.java:20-31 | with the intended test, an eyepiece with a name written through this mapper is rebuilt exactly from a row echoing the write |
| DaoTelescopeDao.TelescopeDao.constructor | src/com/jotabout/eyepiececalc/dao/TelescopeDAO.java:19-30 | the columns are exactly [id, name, aperture, focalLength], the table "telescopes", the class Telescope's qualified name |
| DaoTelescopeDao.SameMapping | src/com/jotabout/eyepiececalc/dao/TelescopeDAO.java:16-29 | the same table and columns as the data package's mapper, with no duplicate column; every column has a getter and a setter of one type on Telescope, and every Telescope field is a column |
| DaoEyepieceDao.EyepieceDao.constructor | src/com/jotabout/eyepiececalc/dao/EyepieceDAO.java:19-30 | the columns are exactly [id, name, apparentFOV, focalLength], the table "eyepieces", the class Eyepiece's qualified name |
| DaoEyepieceDao.SameMapping | src/com/jotabout/eyepiececalc/dao/EyepieceDAO.java:16-29 | the same table and columns as the data package's mapper, with no duplicate column; every column has a getter and a setter of one type on Eyepiece, and every Eyepiece field is a column |

## Left out

- The SQLite database, SQL text and `ContentValues` semantics. The database answers through arbitrary reply functions, and the model states what the mapper sends and how it reads the replies.
- The `ClassCastException` that `(String[]) COLUMN_NAMES.toArray()` raises at BaseDAO.java:138 and :181. `ArrayList.toArray()` returns an `Object[]`, so as written every read fails there. The query is modelled as receiving the column list.
- The empty column name. `COLUMN_NAMES.add("")` is accepted, and `substring(0,1)` at BaseDAO.java:211 and :259 then throws `StringIndexOutOfBoundsException`. `Naming.Capitalized` and `DataBaseDao.BaseDao.AddColumn` require a non-empty name. No subclass adds one.
- Rows that lack a column. `getColumnIndex` returning -1 is not modelled: a row answers `getString`/`getInt` for every column name.
- Null `CLASS_NAME`. Every reading method requires the class name to be set, as every subclass does in its constructor. `Class.forName(null)` throws a `NullPointerException` that the source does not catch.
- Classes other than `Telescope` and `Eyepiece`. `Class.forName` of any other name is "not found".
- Methods inherited from `Object`, such as `getClass` and `hashCode`. The tables list only the public methods each model class declares.
- Getter invocation failures. The getters of both model classes cannot throw, so the `InvocationTargetException`/`IllegalAccessException` paths of `getValueForColumn` are unreachable here.
- Upper-casing is modelled for ASCII only. Locale-dependent `toUpperCase` is not modelled.
- `insertEntry`'s Java `long` result is an unbounded `int`. It is passed through from the database unchanged.
- DBAdapter, EyepieceAdapter, Migration, the UI activities and the instrumentation test. They are outside the mapper.
- Dafny has no inheritance of classes, so each subclass DAO holds its configured `BaseDao` instead of extending it. The protected `KEY_*` fields become module constants.
- DataBaseDao.BaseDao.GetEntry: the `ClassNotFoundException` path returns no entity, as the source's catch does. The model does not distinguish it from "no row".

## Findings

| source | as written | input that shows it | evidently intended | confidence | as-written member | corrected member |
|---|---|---|---|---|---|---|
| src/com/jotabout/eyepiececalc/data/BaseDAO.java:223-227 | `returnType.getClass()` is the class of the `Type` object, `java.lang.Class`, so it equals neither `String.class` nor `Integer.TYPE`; every column's value is null and every insert or update sends an empty value set | a telescope named "8in Dob" with focal length 1200: its insert sends no values | compare the return type itself, so String getters contribute their value and int getters their decimal text | not executed | Mapping.ContentAsWrittenEmpty | Mapping.RoundTrip |
| src/com/jotabout/eyepiececalc/data/BaseDAO.java:254 | `Class.forName(CLASS_NAME)` is the `Class` object, not an instance; through the unchecked cast it is what gets populated, and `java.lang.Class` has no setter of any derived name, so no column is applied and the `Class` object itself is returned | once the `toArray` cast at :138/:181, which throws `ClassCastException` first, is fixed: any row read by `getEntry` or `getAllEntriesAsList` on the telescope table | a new instance (`Class.forName(CLASS_NAME).newInstance()`) populated through its setters | not executed | Mapping.PopulateWithoutSetterNames | DataBaseDao.BaseDao.CreateObjectFromCursor |
