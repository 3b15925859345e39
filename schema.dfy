/**
 * The database schema created by the application's single migration
 * (version 1, "create_initial_tables"): three tables, their keys, NOT NULL
 * columns, defaults and the AUTOINCREMENT id, together with what an INSERT
 * does with the columns it is not given.
 */
module Schema {
  import opened Wrappers
  import Storage

  /** The declared type of a column. */
  datatype SqlType = TextType | RealType | IntegerType | BooleanType

  /** The columns of the three tables; `SqlName` gives each one's name in the schema. */
  datatype ColumnName =
    | Date | AnaKasaNakit | AnaKasaVisa | PcNakit | PcVisa
    | Id | Period | Category | SubCategory | Title | Number | Amount | IsPaid
    | IsFullyPaid

  function SqlName(c: ColumnName): string
  {
    match c
    case Date => "date"
    case AnaKasaNakit => "ana_kasa_nakit"
    case AnaKasaVisa => "ana_kasa_visa"
    case PcNakit => "pc_nakit"
    case PcVisa => "pc_visa"
    case Id => "id"
    case Period => "period"
    case Category => "category"
    case SubCategory => "sub_category"
    case Title => "title"
    case Number => "number"
    case Amount => "amount"
    case IsPaid => "is_paid"
    case IsFullyPaid => "is_fully_paid"
  }

  /** A stored SQLite value. */
  datatype Value = Null | Int(i: int) | Real(r: real) | Text(s: string)

  /**
   * A column definition. `default` is the value stored when an INSERT does not
   * name the column (Null when the column has no DEFAULT clause; a `DEFAULT 0`
   * is stored after the column's type affinity has been applied to it).
   */
  datatype ColumnSpec = ColumnSpec(
    kind: SqlType,
    primaryKey: bool,
    autoIncrement: bool,
    notNull: bool,
    default: Value)

  /** A table: its name, its primary-key column and its columns by name. */
  datatype Table = Table(name: string, key: ColumnName, columns: map<ColumnName, ColumnSpec>)

  type Row = map<ColumnName, Value>

  datatype MigrationKind = Up | Down

  datatype Migration = Migration(version: nat, description: string, kind: MigrationKind, tables: seq<Table>)

  datatype SqlError = NoSuchColumn | NotNullFailed | UniqueFailed

  /** What an INSERT does with a stored row of the same key: fail (plain INSERT) or replace it (INSERT OR REPLACE). */
  datatype ConflictMode = Abort | Replace

  const DailyRecordsTable := Table("daily_records", Date, map[
    Date := ColumnSpec(TextType, true, false, false, Null),
    AnaKasaNakit := ColumnSpec(RealType, false, false, false, Real(0.0)),
    AnaKasaVisa := ColumnSpec(RealType, false, false, false, Real(0.0)),
    PcNakit := ColumnSpec(RealType, false, false, false, Real(0.0)),
    PcVisa := ColumnSpec(RealType, false, false, false, Real(0.0))
  ])

  const ExpensesTable := Table("expenses", Id, map[
    Id := ColumnSpec(IntegerType, true, true, false, Null),
    Period := ColumnSpec(TextType, false, false, true, Null),
    Category := ColumnSpec(TextType, false, false, true, Null),
    SubCategory := ColumnSpec(TextType, false, false, false, Null),
    Title := ColumnSpec(TextType, false, false, true, Null),
    Number := ColumnSpec(TextType, false, false, false, Null),
    Amount := ColumnSpec(RealType, false, false, false, Real(0.0)),
    IsPaid := ColumnSpec(BooleanType, false, false, false, Int(0))
  ])

  const PeriodStatusTable := Table("period_status", Period, map[
    Period := ColumnSpec(TextType, true, false, false, Null),
    IsFullyPaid := ColumnSpec(BooleanType, false, false, false, Int(0))
  ])

  /** `get_migrations`: one migration creating the three tables. */
  function GetMigrations(): seq<Migration>
  {
    [Migration(1, "create_initial_tables", Up, [DailyRecordsTable, ExpensesTable, PeriodStatusTable])]
  }

  /** The primary-key columns of a table. */
  function KeyColumns(t: Table): set<ColumnName>
  {
    set n | n in t.columns && t.columns[n].primaryKey
  }

  /**
   * The value an INSERT stores in a column: the supplied one, else the
   * default; a NULL in the AUTOINCREMENT column becomes the next id.
   */
  function Resolve(n: ColumnName, spec: ColumnSpec, supplied: Row, nextId: int): Value
  {
    var v := if n in supplied then supplied[n] else spec.default;
    if spec.autoIncrement && v == Null then Int(nextId) else v
  }

  predicate Admits(spec: ColumnSpec, v: Value)
  {
    !(spec.notNull && v == Null)
  }

  /**
   * The row an INSERT into `t` naming the columns of `supplied` builds: an
   * unknown column is an error, so is a NOT NULL column left NULL; otherwise
   * the row holds the resolved value of every column of the table.
   */
  function BuildRow(t: Table, supplied: Row, nextId: int): (r: Result<Row, SqlError>)
    ensures !(supplied.Keys <= t.columns.Keys) ==> r == Err(NoSuchColumn)
    ensures supplied.Keys <= t.columns.Keys ==>
      (r.Ok? <==> forall n :: n in t.columns ==> Admits(t.columns[n], Resolve(n, t.columns[n], supplied, nextId)))
    ensures r.Ok? ==> r.value.Keys == t.columns.Keys
    ensures r.Ok? ==> forall n :: n in t.columns ==> r.value[n] == Resolve(n, t.columns[n], supplied, nextId)
  {
    if !(supplied.Keys <= t.columns.Keys) then Err(NoSuchColumn)
    else if exists n :: n in t.columns && !Admits(t.columns[n], Resolve(n, t.columns[n], supplied, nextId)) then
      Err(NotNullFailed)
    else
      Ok(map n | n in t.columns :: Resolve(n, t.columns[n], supplied, nextId))
  }

  /** An INSERT that leaves no NOT NULL column NULL builds exactly the resolved row. */
  lemma BuildRowIs(t: Table, supplied: Row, nextId: int, expected: Row)
    requires supplied.Keys <= t.columns.Keys
    requires expected.Keys == t.columns.Keys
    requires forall n :: n in t.columns ==>
      Admits(t.columns[n], Resolve(n, t.columns[n], supplied, nextId)) && Resolve(n, t.columns[n], supplied, nextId) == expected[n]
    ensures BuildRow(t, supplied, nextId) == Ok(expected)
  {
    var r := BuildRow(t, supplied, nextId);
    assert r.Ok?;
    assert r.value == expected;
  }

  /** The key of a stored row; a row without the column has a NULL key. */
  function KeyOf(t: Table, row: Row): Value
  {
    if t.key in row then row[t.key] else Null
  }

  /** The stored rows with the same key as `row`. NULL keys never clash, as in SQLite. */
  function Clashing(t: Table, stored: set<Row>, row: Row): set<Row>
  {
    set s | s in stored && KeyOf(t, row) != Null && KeyOf(t, s) == KeyOf(t, row)
  }

  /**
   * An INSERT into `t` holding the rows `stored`: the row is built as above;
   * a plain INSERT whose key is already stored fails, while INSERT OR REPLACE
   * first deletes the stored row with that key.
   */
  function Insert(t: Table, stored: set<Row>, supplied: Row, nextId: int, mode: ConflictMode): (r: Result<set<Row>, SqlError>)
    ensures BuildRow(t, supplied, nextId).Err? ==> r == Err(BuildRow(t, supplied, nextId).error)
    ensures BuildRow(t, supplied, nextId).Ok? ==>
      (r == Err(UniqueFailed) <==> mode == Abort && Clashing(t, stored, BuildRow(t, supplied, nextId).value) != {})
    ensures r.Ok? ==> BuildRow(t, supplied, nextId).Ok? && BuildRow(t, supplied, nextId).value in r.value
    ensures r.Ok? ==> forall s :: s in r.value && s != BuildRow(t, supplied, nextId).value ==>
      s in stored && s !in Clashing(t, stored, BuildRow(t, supplied, nextId).value)
    ensures BuildRow(t, supplied, nextId).Ok? && !(mode == Abort && Clashing(t, stored, BuildRow(t, supplied, nextId).value) != {}) ==>
      r == Ok((stored - Clashing(t, stored, BuildRow(t, supplied, nextId).value)) + {BuildRow(t, supplied, nextId).value})
  {
    match BuildRow(t, supplied, nextId)
    case Err(e) => Err(e)
    case Ok(row) =>
      var clash := Clashing(t, stored, row);
      if mode == Abort && clash != {} then Err(UniqueFailed) else Ok((stored - clash) + {row})
  }

  /** The primary key holds: no two stored rows share a non-NULL key. */
  ghost predicate KeysUnique(t: Table, stored: set<Row>)
  {
    forall a, b :: a in stored && b in stored && KeyOf(t, a) != Null && KeyOf(t, a) == KeyOf(t, b) ==> a == b
  }

  /**
   * Every INSERT that succeeds, plain or OR REPLACE, keeps one row per key,
   * and the new row is then the only one with its key.
   */
  lemma InsertKeepsKeysUnique(t: Table, stored: set<Row>, supplied: Row, nextId: int, mode: ConflictMode)
    requires KeysUnique(t, stored)
    requires Insert(t, stored, supplied, nextId, mode).Ok?
    ensures KeysUnique(t, Insert(t, stored, supplied, nextId, mode).value)
    ensures var row := BuildRow(t, supplied, nextId).value;
      KeyOf(t, row) != Null ==>
        forall s :: s in Insert(t, stored, supplied, nextId, mode).value && KeyOf(t, s) == KeyOf(t, row) ==> s == row
  {
    var row := BuildRow(t, supplied, nextId).value;
    var after := Insert(t, stored, supplied, nextId, mode).value;
    forall a, b | a in after && b in after && KeyOf(t, a) != Null && KeyOf(t, a) == KeyOf(t, b)
      ensures a == b
    {
      if a != row && b != row {
        assert a in stored && b in stored;
      }
    }
  }

  /** Each table has one primary key; only the expense id is AUTOINCREMENT. */
  lemma SchemaKeys()
    ensures KeyColumns(DailyRecordsTable) == {Date} && DailyRecordsTable.key == Date
    ensures KeyColumns(ExpensesTable) == {Id} && ExpensesTable.key == Id
    ensures KeyColumns(PeriodStatusTable) == {Period} && PeriodStatusTable.key == Period
    ensures forall n :: n in ExpensesTable.columns && ExpensesTable.columns[n].autoIncrement ==> n == Id
    ensures forall n :: n in DailyRecordsTable.columns ==> !DailyRecordsTable.columns[n].autoIncrement
    ensures forall n :: n in PeriodStatusTable.columns ==> !PeriodStatusTable.columns[n].autoIncrement
  {
  }

  /** A daily row given only its date gets 0 in each of the four till amounts. */
  lemma DailyAmountsDefaultToZero(date: string, nextId: int)
    ensures BuildRow(DailyRecordsTable, map[Date := Text(date)], nextId) == Ok(map[
      Date := Text(date), AnaKasaNakit := Real(0.0), AnaKasaVisa := Real(0.0),
      PcNakit := Real(0.0), PcVisa := Real(0.0)])
  {
    BuildRowIs(DailyRecordsTable, map[Date := Text(date)], nextId, map[
      Date := Text(date), AnaKasaNakit := Real(0.0), AnaKasaVisa := Real(0.0),
      PcNakit := Real(0.0), PcVisa := Real(0.0)]);
  }

  /**
   * An expense INSERT fails exactly when `period`, `category` or `title` is
   * missing or NULL; otherwise `id` is the next id unless one is given, and
   * `amount` and `is_paid` default to 0 while `sub_category` and `number`
   * default to NULL.
   */
  lemma ExpenseColumnRules(supplied: Row, nextId: int)
    requires supplied.Keys <= ExpensesTable.columns.Keys
    ensures var r := BuildRow(ExpensesTable, supplied, nextId);
      r.Ok? <==> (forall n :: n in {Period, Category, Title} ==> n in supplied && supplied[n] != Null)
    ensures var r := BuildRow(ExpensesTable, supplied, nextId);
      r.Ok? ==>
        && (Id !in supplied || supplied[Id] == Null ==> r.value[Id] == Int(nextId))
        && (Amount !in supplied ==> r.value[Amount] == Real(0.0))
        && (IsPaid !in supplied ==> r.value[IsPaid] == Int(0))
        && (SubCategory !in supplied ==> r.value[SubCategory] == Null)
        && (Number !in supplied ==> r.value[Number] == Null)
  {
    var cols := ExpensesTable.columns;
    if !(forall n :: n in {Period, Category, Title} ==> n in supplied && supplied[n] != Null) {
      var n :| n in {Period, Category, Title} && !(n in supplied && supplied[n] != Null);
      assert !Admits(cols[n], Resolve(n, cols[n], supplied, nextId));
    }
  }

  /** A period status given only its period reads as not fully paid. */
  lemma PeriodStatusDefaultsToZero(period: string, nextId: int)
    ensures BuildRow(PeriodStatusTable, map[Period := Text(period)], nextId)
      == Ok(map[Period := Text(period), IsFullyPaid := Int(0)])
  {
    BuildRowIs(PeriodStatusTable, map[Period := Text(period)], nextId, map[Period := Text(period), IsFullyPaid := Int(0)]);
  }

  // ---------------------------------------------------------------------------
  // The typed rows of the storage engine against the schema

  function CellValue(c: Storage.Cell): Value
  {
    match c
    case None => Null
    case Some(x) => Real(x)
  }

  function TextOrNull(s: Option<string>): Value
  {
    match s
    case None => Null
    case Some(x) => Text(x)
  }

  /** The five parameters `saveDailyRecord` binds, by column. */
  function DailyValues(record: Storage.DailyRecord): Row
  {
    map[Date := Text(record.date), AnaKasaNakit := CellValue(record.mainCash),
        AnaKasaVisa := CellValue(record.mainCard), PcNakit := CellValue(record.pcCash),
        PcVisa := CellValue(record.pcCard)]
  }

  /** The seven parameters `addExpense` binds, by column (`id` is left to AUTOINCREMENT). */
  function ExpenseValues(e: Storage.Expense): Row
  {
    map[Period := Text(e.period), Category := Text(e.category),
        SubCategory := TextOrNull(Storage.NullIfEmpty(e.subCategory)), Title := Text(e.title),
        Number := TextOrNull(Storage.NullIfEmpty(e.number)), Amount := Real(e.amount),
        IsPaid := Int(Storage.EncodeBool(e.isPaid))]
  }

  /** A typed expense row as the SQLite row it stands for. */
  function ExpenseRowValues(r: Storage.ExpenseRow): Row
  {
    map[Id := Int(r.id), Period := Text(r.period), Category := Text(r.category),
        SubCategory := TextOrNull(r.subCategory), Title := Text(r.title),
        Number := TextOrNull(r.number), Amount := Real(r.amount), IsPaid := Int(r.isPaid)]
  }

  /** The row `saveDailyRecord`'s INSERT builds is exactly the record's five values. */
  lemma DailyRowBuilt(record: Storage.DailyRecord, nextId: int)
    ensures BuildRow(DailyRecordsTable, DailyValues(record), nextId) == Ok(DailyValues(record))
  {
    BuildRowIs(DailyRecordsTable, DailyValues(record), nextId, DailyValues(record));
  }

  /** The row `addExpense`'s INSERT builds always passes the NOT NULL checks and is the typed row. */
  lemma ExpenseRowBuilt(e: Storage.Expense, nextId: nat)
    ensures BuildRow(ExpensesTable, ExpenseValues(e), nextId) == Ok(ExpenseRowValues(Storage.ToRow(nextId, e)))
  {
    BuildRowIs(ExpensesTable, ExpenseValues(e), nextId, ExpenseRowValues(Storage.ToRow(nextId, e)));
  }

  /** The stored `daily_records` table, one row per entry of the storage model's map. */
  function DailyTable(daily: map<string, Storage.DailyRecord>): set<Row>
  {
    set d | d in daily :: DailyValues(daily[d])
  }

  /** The stored `expenses` table. */
  function ExpenseTable(rows: seq<Storage.ExpenseRow>): set<Row>
  {
    set r | r in rows :: ExpenseRowValues(r)
  }

  /** A `period_status` row. */
  function StatusRow(period: string, flag: int): Row
  {
    map[Period := Text(period), IsFullyPaid := Int(flag)]
  }

  /** The stored `period_status` table. */
  function StatusTable(status: map<string, int>): set<Row>
  {
    set p | p in status :: StatusRow(p, status[p])
  }

  lemma DailyKey(r: Storage.DailyRecord)
    ensures KeyOf(DailyRecordsTable, DailyValues(r)) == Text(r.date)
  {
  }

  lemma ExpenseKey(r: Storage.ExpenseRow)
    ensures KeyOf(ExpensesTable, ExpenseRowValues(r)) == Int(r.id)
  {
  }

  lemma StatusKey(period: string, flag: int)
    ensures KeyOf(PeriodStatusTable, StatusRow(period, flag)) == Text(period)
  {
  }

  /** Tables the storage model keeps well formed satisfy all three primary keys. */
  lemma StoredKeysUnique(t: Storage.Tables)
    requires Storage.WellFormed(t)
    ensures KeysUnique(DailyRecordsTable, DailyTable(t.daily))
    ensures KeysUnique(ExpensesTable, ExpenseTable(t.expenses))
    ensures KeysUnique(PeriodStatusTable, StatusTable(t.periodStatus))
  {
    forall a, b | a in DailyTable(t.daily) && b in DailyTable(t.daily)
      && KeyOf(DailyRecordsTable, a) != Null && KeyOf(DailyRecordsTable, a) == KeyOf(DailyRecordsTable, b)
      ensures a == b
    {
      var da :| da in t.daily && a == DailyValues(t.daily[da]);
      var db :| db in t.daily && b == DailyValues(t.daily[db]);
      DailyKey(t.daily[da]);
      DailyKey(t.daily[db]);
    }
    forall a, b | a in ExpenseTable(t.expenses) && b in ExpenseTable(t.expenses)
      && KeyOf(ExpensesTable, a) != Null && KeyOf(ExpensesTable, a) == KeyOf(ExpensesTable, b)
      ensures a == b
    {
      var ra :| ra in t.expenses && a == ExpenseRowValues(ra);
      var rb :| rb in t.expenses && b == ExpenseRowValues(rb);
      ExpenseKey(ra);
      ExpenseKey(rb);
      var i :| 0 <= i < |t.expenses| && t.expenses[i] == ra;
      var j :| 0 <= j < |t.expenses| && t.expenses[j] == rb;
      assert ra.id == rb.id;
      assert i == j;
    }
    forall a, b | a in StatusTable(t.periodStatus) && b in StatusTable(t.periodStatus)
      && KeyOf(PeriodStatusTable, a) != Null && KeyOf(PeriodStatusTable, a) == KeyOf(PeriodStatusTable, b)
      ensures a == b
    {
      var pa :| pa in t.periodStatus && a == StatusRow(pa, t.periodStatus[pa]);
      var pb :| pb in t.periodStatus && b == StatusRow(pb, t.periodStatus[pb]);
      StatusKey(pa, t.periodStatus[pa]);
      StatusKey(pb, t.periodStatus[pb]);
    }
  }

  /**
   * `saveDailyRecord`'s INSERT OR REPLACE, run on the stored table, yields
   * exactly the table of the storage model's upsert: the row for that date
   * is replaced and no other row changes.
   */
  lemma SaveDailyMatchesSchema(t: Storage.Tables, record: Storage.DailyRecord, nextId: int)
    requires Storage.WellFormed(t)
    ensures Insert(DailyRecordsTable, DailyTable(t.daily), DailyValues(record), nextId, Replace)
      == Ok(DailyTable(Storage.SaveDaily(t, record).daily))
  {
    DailyRowBuilt(record, nextId);
    var row := DailyValues(record);
    var m := Storage.SaveDaily(t, record).daily;
    var stored := DailyTable(t.daily);
    var after := DailyTable(m);
    var clash := Clashing(DailyRecordsTable, stored, row);
    DailyKey(record);
    forall s | s in (stored - clash) + {row} ensures s in after {
      if s == row {
        assert record.date in m && s == DailyValues(m[record.date]);
      } else {
        var d :| d in t.daily && s == DailyValues(t.daily[d]);
        DailyKey(t.daily[d]);
        assert d != record.date;
        assert d in m && s == DailyValues(m[d]);
      }
    }
    forall s | s in after ensures s in (stored - clash) + {row} {
      var d :| d in m && s == DailyValues(m[d]);
      if d != record.date {
        DailyKey(t.daily[d]);
        assert d in t.daily && s == DailyValues(t.daily[d]);
        assert s in stored && s !in clash;
      }
    }
    assert (stored - clash) + {row} == after;
  }

  /**
   * `setPeriodStatus`'s INSERT OR REPLACE yields exactly the table of the
   * storage model's upsert.
   */
  lemma SetStatusMatchesSchema(t: Storage.Tables, period: string, isFullyPaid: bool, nextId: int)
    ensures Insert(PeriodStatusTable, StatusTable(t.periodStatus), StatusRow(period, Storage.EncodeBool(isFullyPaid)), nextId, Replace)
      == Ok(StatusTable(Storage.SetStatus(t, period, isFullyPaid).periodStatus))
  {
    var row := StatusRow(period, Storage.EncodeBool(isFullyPaid));
    BuildRowIs(PeriodStatusTable, row, nextId, row);
    var stored := StatusTable(t.periodStatus);
    var m := Storage.SetStatus(t, period, isFullyPaid).periodStatus;
    var after := StatusTable(m);
    var clash := Clashing(PeriodStatusTable, stored, row);
    StatusKey(period, Storage.EncodeBool(isFullyPaid));
    forall s | s in (stored - clash) + {row} ensures s in after {
      if s == row {
        assert period in m && s == StatusRow(period, m[period]);
      } else {
        var p :| p in t.periodStatus && s == StatusRow(p, t.periodStatus[p]);
        StatusKey(p, t.periodStatus[p]);
        assert p != period;
        assert p in m && s == StatusRow(p, m[p]);
      }
    }
    forall s | s in after ensures s in (stored - clash) + {row} {
      var p :| p in m && s == StatusRow(p, m[p]);
      if p != period {
        StatusKey(p, t.periodStatus[p]);
        assert p in t.periodStatus && s == StatusRow(p, t.periodStatus[p]);
        assert s in stored && s !in clash;
      }
    }
    assert (stored - clash) + {row} == after;
  }

  /** A plain INSERT of a period that is already stored would fail on the key; that is why the code uses OR REPLACE. */
  lemma PlainInsertOfStoredPeriodFails(status: map<string, int>, period: string, flag: int, nextId: int)
    requires period in status
    ensures Insert(PeriodStatusTable, StatusTable(status), StatusRow(period, flag), nextId, Abort) == Err(UniqueFailed)
  {
    var row := StatusRow(period, flag);
    BuildRowIs(PeriodStatusTable, row, nextId, row);
    StatusKey(period, flag);
    StatusKey(period, status[period]);
    assert StatusRow(period, status[period]) in StatusTable(status);
    assert StatusRow(period, status[period]) in Clashing(PeriodStatusTable, StatusTable(status), row);
  }

  /**
   * `addExpense`'s plain INSERT never clashes, since the AUTOINCREMENT id is
   * above every id in use, and yields exactly the table of the storage
   * model's insertion.
   */
  lemma AddExpenseMatchesSchema(t: Storage.Tables, e: Storage.Expense)
    requires Storage.WellFormed(t)
    ensures Insert(ExpensesTable, ExpenseTable(t.expenses), ExpenseValues(e), t.nextId, Abort)
      == Ok(ExpenseTable(Storage.Insert(t, e).expenses))
  {
    ExpenseRowBuilt(e, t.nextId);
    var row := ExpenseRowValues(Storage.ToRow(t.nextId, e));
    var stored := ExpenseTable(t.expenses);
    var newRows := Storage.Insert(t, e).expenses;
    assert Clashing(ExpensesTable, stored, row) == {} by {
      ExpenseKey(Storage.ToRow(t.nextId, e));
      forall s | s in stored ensures KeyOf(ExpensesTable, s) != KeyOf(ExpensesTable, row) {
        var r :| r in t.expenses && s == ExpenseRowValues(r);
        ExpenseKey(r);
      }
    }
    forall s | s in ExpenseTable(newRows) ensures s in stored + {row} {
      var r :| r in newRows && s == ExpenseRowValues(r);
      if r != Storage.ToRow(t.nextId, e) {
        assert r in t.expenses;
      }
    }
    assert stored + {row} == ExpenseTable(newRows);
    assert stored - {} == stored;
  }
}
