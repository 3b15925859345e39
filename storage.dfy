/**
 * The storage engine of the bookkeeping tool: the three SQLite tables
 * `daily_records`, `expenses` and `period_status`, and the typed operations
 * the pages call on them.
 *
 * The tables are kept as a value (`Tables`) so that several operations can be
 * related by lemmas; the class `Database` holds the same state in fields and
 * its methods are proved to perform exactly the corresponding transition.
 */
module Storage {
  import opened Wrappers

  /** A nullable SQLite REAL column as JavaScript reads it (NULL arrives as `null`). */
  type Cell = Option<real>

  /** JavaScript `x || 0` on a number read from the database: NULL and 0 both give 0. */
  function OrZero(c: Cell): real
  {
    c.GetOr(0.0)
  }

  /** One row of `daily_records`: the date and the four till amounts. */
  datatype DailyRecord = DailyRecord(
    date: string,
    mainCash: Cell,  // ana_kasa_nakit: main till, cash
    mainCard: Cell,  // ana_kasa_visa: main till, card
    pcCash: Cell,    // pc_nakit: computer till, cash
    pcCard: Cell)    // pc_visa: computer till, card

  /** An expense as the pages handle it; `id` is absent on an expense not yet inserted. */
  datatype Expense = Expense(
    id: Option<nat>,
    period: string,      // YYYY-MM
    category: string,
    subCategory: Option<string>,
    title: string,
    number: Option<string>,
    amount: real,
    isPaid: bool)

  /** One stored row of `expenses`; `is_paid` is kept as the integer SQLite stores. */
  datatype ExpenseRow = ExpenseRow(
    id: nat,
    period: string,
    category: string,
    subCategory: Option<string>,
    title: string,
    number: Option<string>,
    amount: real,
    isPaid: int)

  // ---------------------------------------------------------------------------
  // Boolean encoding: written as `b ? 1 : 0`, read back with JavaScript Boolean()

  function EncodeBool(b: bool): (i: int)
    ensures i == 0 || i == 1
    ensures DecodeBool(i) == b
  {
    if b then 1 else 0
  }

  /** `Boolean(x)` on a stored integer: 0 is false, every other value is true. */
  function DecodeBool(i: int): bool
  {
    i != 0
  }

  /** On the two values the engine writes, encoding undoes decoding. */
  lemma DecodeEncode(i: int)
    requires i == 0 || i == 1
    ensures EncodeBool(DecodeBool(i)) == i
  {
  }

  /** JavaScript `s || null` on an optional string: both an absent and an empty string become NULL. */
  function NullIfEmpty(s: Option<string>): (r: Option<string>)
    ensures r.None? <==> (s.None? || s.value == "")
    ensures r.Some? ==> r == s
  {
    if s.Some? && s.value != "" then s else None
  }

  // ---------------------------------------------------------------------------
  // The tables

  /**
   * The three tables. `expenses` is in insertion (id) order, which is the order
   * a SELECT without ORDER BY returns them in; `nextId` is one more than the
   * largest id AUTOINCREMENT has handed out.
   */
  datatype Tables = Tables(
    daily: map<string, DailyRecord>,
    expenses: seq<ExpenseRow>,
    nextId: nat,
    periodStatus: map<string, int>)

  /** The tables as the migration creates them. */
  const EmptyTables := Tables(map[], [], 1, map[])

  ghost predicate IdsIncreasing(rows: seq<ExpenseRow>)
  {
    forall i, j :: 0 <= i < j < |rows| ==> rows[i].id < rows[j].id
  }

  ghost predicate IdsBelow(rows: seq<ExpenseRow>, bound: nat)
  {
    forall x :: x in rows ==> 1 <= x.id < bound
  }

  ghost predicate FlagsEncoded(rows: seq<ExpenseRow>)
  {
    forall x :: x in rows ==> x.isPaid == 0 || x.isPaid == 1
  }

  /**
   * What the schema and the operations keep true: a daily row is stored under
   * its own date (the primary key), expense ids are distinct, increasing and
   * below the AUTOINCREMENT counter, and every stored flag is 0 or 1.
   */
  ghost predicate WellFormed(t: Tables)
  {
    && (forall d :: d in t.daily ==> t.daily[d].date == d)
    && 1 <= t.nextId
    && IdsIncreasing(t.expenses)
    && IdsBelow(t.expenses, t.nextId)
    && FlagsEncoded(t.expenses)
    && (forall p :: p in t.periodStatus ==> t.periodStatus[p] == 0 || t.periodStatus[p] == 1)
  }

  lemma EmptyTablesWellFormed()
    ensures WellFormed(EmptyTables)
  {
  }

  // ---------------------------------------------------------------------------
  // daily_records

  /** The stored row for `date`, or None when there is none; a stored row carries its own date. */
  function GetDaily(t: Tables, date: string): (r: Option<DailyRecord>)
    ensures r.Some? <==> date in t.daily
    ensures r.Some? ==> r.value == t.daily[date]
    ensures WellFormed(t) && r.Some? ==> r.value.date == date
  {
    if date in t.daily then Some(t.daily[date]) else None
  }

  /** INSERT OR REPLACE: the row for `record.date` is replaced as a whole. */
  function SaveDaily(t: Tables, record: DailyRecord): Tables
  {
    t.(daily := t.daily[record.date := record])
  }

  lemma SaveDailyRoundTrip(t: Tables, record: DailyRecord, other: string)
    requires other != record.date
    ensures GetDaily(SaveDaily(t, record), record.date) == Some(record)
    ensures GetDaily(SaveDaily(t, record), other) == GetDaily(t, other)
    ensures SaveDaily(SaveDaily(t, record), record) == SaveDaily(t, record)
    ensures SaveDaily(t, record).expenses == t.expenses && SaveDaily(t, record).periodStatus == t.periodStatus
  {
  }

  lemma SaveDailyKeepsWellFormed(t: Tables, record: DailyRecord)
    requires WellFormed(t)
    ensures WellFormed(SaveDaily(t, record))
  {
  }

  // ---------------------------------------------------------------------------
  // expenses: selection and decoding

  /** `SELECT * FROM expenses WHERE period = p AND category = c`, in stored order. */
  function Select(rows: seq<ExpenseRow>, period: string, category: string): (r: seq<ExpenseRow>)
    ensures |r| <= |rows|
    decreases |rows|
  {
    if rows == [] then []
    else
      (if rows[0].period == period && rows[0].category == category then [rows[0]] else [])
      + Select(rows[1..], period, category)
  }

  /** A row is selected exactly when it is stored with that period and category. */
  lemma {:induction false} SelectMembers(rows: seq<ExpenseRow>, period: string, category: string)
    ensures forall x :: x in Select(rows, period, category) <==> x in rows && x.period == period && x.category == category
    decreases |rows|
  {
    if rows != [] {
      SelectMembers(rows[1..], period, category);
      assert rows == [rows[0]] + rows[1..];
    }
  }

  /** Selecting from a single row. */
  lemma SelectOne(row: ExpenseRow, period: string, category: string)
    ensures Select([row], period, category) == if row.period == period && row.category == category then [row] else []
  {
    assert [row][1..] == [];
  }

  lemma {:induction false} SelectAppend(a: seq<ExpenseRow>, b: seq<ExpenseRow>, period: string, category: string)
    ensures Select(a + b, period, category) == Select(a, period, category) + Select(b, period, category)
    decreases |a|
  {
    if a == [] {
      assert a + b == b;
    } else {
      assert (a + b)[0] == a[0];
      assert (a + b)[1..] == a[1..] + b;
      SelectAppend(a[1..], b, period, category);
    }
  }

  /** A stored row as `getExpenses` hands it to the page: `is_paid` through Boolean(). */
  function FromRow(r: ExpenseRow): Expense
  {
    Expense(Some(r.id), r.period, r.category, r.subCategory, r.title, r.number, r.amount, DecodeBool(r.isPaid))
  }

  function DecodeRows(rows: seq<ExpenseRow>): seq<Expense>
  {
    seq(|rows|, i requires 0 <= i < |rows| => FromRow(rows[i]))
  }

  lemma DecodeRowsAppend(a: seq<ExpenseRow>, b: seq<ExpenseRow>)
    ensures DecodeRows(a + b) == DecodeRows(a) + DecodeRows(b)
  {
  }

  /** The result of `getExpenses(period, category)`. */
  function ListExpenses(t: Tables, period: string, category: string): seq<Expense>
  {
    DecodeRows(Select(t.expenses, period, category))
  }

  /**
   * `getExpenses` lists exactly the stored rows of that period and category:
   * every listed expense matches and comes from a stored row, and every
   * matching stored row is listed, with its flag decoded.
   */
  lemma ListExpensesExact(t: Tables, period: string, category: string)
    ensures forall x :: x in ListExpenses(t, period, category) ==>
      x.period == period && x.category == category && x.id.Some?
    ensures forall r :: r in t.expenses && r.period == period && r.category == category ==>
      FromRow(r) in ListExpenses(t, period, category)
    ensures forall x :: x in ListExpenses(t, period, category) ==>
      exists r :: r in t.expenses && x == FromRow(r)
  {
    var sel := Select(t.expenses, period, category);
    var list := ListExpenses(t, period, category);
    SelectMembers(t.expenses, period, category);
    forall x | x in list
      ensures x.period == period && x.category == category && x.id.Some?
      ensures exists r :: r in t.expenses && x == FromRow(r)
    {
      var i :| 0 <= i < |list| && list[i] == x;
      assert sel[i] in sel;
      assert x == FromRow(sel[i]);
    }
    forall r | r in t.expenses && r.period == period && r.category == category
      ensures FromRow(r) in list
    {
      assert r in sel;
      var i :| 0 <= i < |sel| && sel[i] == r;
      assert list[i] == FromRow(r);
    }
  }

  // ---------------------------------------------------------------------------
  // expenses: insertion

  /** The row `addExpense` inserts for `e` under the id AUTOINCREMENT assigns; `e.id` is not used. */
  function ToRow(id: nat, e: Expense): ExpenseRow
  {
    ExpenseRow(id, e.period, e.category, NullIfEmpty(e.subCategory), e.title, NullIfEmpty(e.number),
               e.amount, EncodeBool(e.isPaid))
  }

  /** Reading back an inserted expense gives it with its new id, empty optional strings as NULL. */
  lemma ToRowRoundTrip(id: nat, e: Expense)
    ensures FromRow(ToRow(id, e)) == e.(id := Some(id), subCategory := NullIfEmpty(e.subCategory),
                                        number := NullIfEmpty(e.number))
  {
  }

  /** `INSERT INTO expenses`: one row appended under a fresh id. No id is returned. */
  function Insert(t: Tables, e: Expense): Tables
  {
    t.(expenses := t.expenses + [ToRow(t.nextId, e)], nextId := t.nextId + 1)
  }

  lemma AppendKeepsIncreasing(rows: seq<ExpenseRow>, x: ExpenseRow)
    requires IdsIncreasing(rows)
    requires forall y :: y in rows ==> y.id < x.id
    ensures IdsIncreasing(rows + [x])
  {
    var r := rows + [x];
    forall i, j | 0 <= i < j < |r|
      ensures r[i].id < r[j].id
    {
      assert r[i] == rows[i];
      if j < |rows| {
        assert r[j] == rows[j];
      } else {
        assert rows[i] in rows;
      }
    }
  }

  lemma AppendKeepsBounds(rows: seq<ExpenseRow>, x: ExpenseRow, bound: nat)
    requires IdsBelow(rows, bound) && FlagsEncoded(rows)
    requires 1 <= x.id < bound + 1 && (x.isPaid == 0 || x.isPaid == 1)
    ensures IdsBelow(rows + [x], bound + 1) && FlagsEncoded(rows + [x])
  {
    forall y | y in rows + [x]
      ensures 1 <= y.id < bound + 1 && (y.isPaid == 0 || y.isPaid == 1)
    {
      if y != x {
        assert y in rows;
      }
    }
  }

  /** Insertion keeps every existing row, adds one row, and its id is larger than every id in use. */
  lemma InsertAddsOneRow(t: Tables, e: Expense)
    requires WellFormed(t)
    ensures WellFormed(Insert(t, e))
    ensures |Insert(t, e).expenses| == |t.expenses| + 1
    ensures Insert(t, e).expenses[..|t.expenses|] == t.expenses
    ensures Insert(t, e).expenses[|t.expenses|] == ToRow(t.nextId, e)
    ensures forall x :: x in t.expenses ==> x.id < t.nextId
    ensures Insert(t, e).daily == t.daily && Insert(t, e).periodStatus == t.periodStatus
  {
    var row := ToRow(t.nextId, e);
    AppendKeepsIncreasing(t.expenses, row);
    AppendKeepsBounds(t.expenses, row, t.nextId);
    assert (t.expenses + [row])[..|t.expenses|] == t.expenses;
  }

  /** After insertion the expense's own list grows by exactly the new row; other lists stay as they were. */
  lemma InsertList(t: Tables, e: Expense, period: string, category: string)
    ensures ListExpenses(Insert(t, e), e.period, e.category)
      == ListExpenses(t, e.period, e.category) + [FromRow(ToRow(t.nextId, e))]
    ensures (period, category) != (e.period, e.category) ==>
      ListExpenses(Insert(t, e), period, category) == ListExpenses(t, period, category)
  {
    InsertOwnList(t, e);
    if (period, category) != (e.period, e.category) {
      InsertOtherList(t, e, period, category);
    }
  }

  lemma InsertOwnList(t: Tables, e: Expense)
    ensures Select(Insert(t, e).expenses, e.period, e.category) == Select(t.expenses, e.period, e.category) + [ToRow(t.nextId, e)]
    ensures ListExpenses(Insert(t, e), e.period, e.category)
      == ListExpenses(t, e.period, e.category) + [FromRow(ToRow(t.nextId, e))]
  {
    var row := ToRow(t.nextId, e);
    SelectAppend(t.expenses, [row], e.period, e.category);
    SelectOne(row, e.period, e.category);
    DecodeRowsAppend(Select(t.expenses, e.period, e.category), [row]);
  }

  lemma InsertOtherList(t: Tables, e: Expense, period: string, category: string)
    requires (period, category) != (e.period, e.category)
    ensures Select(Insert(t, e).expenses, period, category) == Select(t.expenses, period, category)
    ensures ListExpenses(Insert(t, e), period, category) == ListExpenses(t, period, category)
  {
    var row := ToRow(t.nextId, e);
    SelectAppend(t.expenses, [row], period, category);
    SelectOne(row, period, category);
    assert Select(t.expenses, period, category) + [] == Select(t.expenses, period, category);
  }

  // ---------------------------------------------------------------------------
  // expenses: paid flag and deletion

  /** `UPDATE expenses SET is_paid = flag WHERE id = id`. */
  function UpdatePaid(rows: seq<ExpenseRow>, id: nat, flag: int): seq<ExpenseRow>
  {
    seq(|rows|, i requires 0 <= i < |rows| => if rows[i].id == id then rows[i].(isPaid := flag) else rows[i])
  }

  function SetPaid(t: Tables, id: nat, isPaid: bool): Tables
  {
    t.(expenses := UpdatePaid(t.expenses, id, EncodeBool(isPaid)))
  }

  /**
   * Only the flag of the row with that id changes: every row keeps its place
   * and every other field, and an unknown id changes nothing.
   */
  lemma SetPaidOnlyFlag(t: Tables, id: nat, isPaid: bool)
    ensures |SetPaid(t, id, isPaid).expenses| == |t.expenses|
    ensures forall i :: 0 <= i < |t.expenses| ==>
      SetPaid(t, id, isPaid).expenses[i] ==
        if t.expenses[i].id == id then t.expenses[i].(isPaid := EncodeBool(isPaid)) else t.expenses[i]
    ensures (forall x :: x in t.expenses ==> x.id != id) ==> SetPaid(t, id, isPaid) == t
    ensures SetPaid(t, id, isPaid).daily == t.daily && SetPaid(t, id, isPaid).nextId == t.nextId
    ensures SetPaid(t, id, isPaid).periodStatus == t.periodStatus
  {
    if forall x :: x in t.expenses ==> x.id != id {
      var rows := SetPaid(t, id, isPaid).expenses;
      forall i | 0 <= i < |t.expenses|
        ensures rows[i] == t.expenses[i]
      {
        assert t.expenses[i] in t.expenses;
      }
      assert rows == t.expenses;
    }
  }

  /** Afterwards every row with that id carries the written flag. */
  lemma SetPaidFlag(t: Tables, id: nat, isPaid: bool)
    ensures forall r :: r in SetPaid(t, id, isPaid).expenses && r.id == id ==> r.isPaid == EncodeBool(isPaid)
  {
    var rows := SetPaid(t, id, isPaid).expenses;
    forall r | r in rows && r.id == id
      ensures r.isPaid == EncodeBool(isPaid)
    {
      var k :| 0 <= k < |rows| && rows[k] == r;
    }
  }

  lemma SetPaidKeepsWellFormed(t: Tables, id: nat, isPaid: bool)
    requires WellFormed(t)
    ensures WellFormed(SetPaid(t, id, isPaid))
  {
    var rows := SetPaid(t, id, isPaid).expenses;
    forall x | x in rows
      ensures 1 <= x.id < t.nextId && (x.isPaid == 0 || x.isPaid == 1)
    {
      var k :| 0 <= k < |rows| && rows[k] == x;
      assert t.expenses[k] in t.expenses;
    }
  }

  /** Writing the negation of the flag twice gives the tables back unchanged. */
  lemma ToggleTwice(t: Tables, id: nat, current: bool)
    requires WellFormed(t)
    requires forall x :: x in t.expenses && x.id == id ==> DecodeBool(x.isPaid) == current
    ensures SetPaid(SetPaid(t, id, !current), id, current) == t
  {
    var rows := SetPaid(SetPaid(t, id, !current), id, current).expenses;
    forall i | 0 <= i < |t.expenses|
      ensures rows[i] == t.expenses[i]
    {
      assert t.expenses[i] in t.expenses;
    }
    assert rows == t.expenses;
  }

  /** `DELETE FROM expenses WHERE id = id`. */
  function RemoveId(rows: seq<ExpenseRow>, id: nat): (r: seq<ExpenseRow>)
    ensures forall x :: x in r <==> x in rows && x.id != id
    ensures |r| <= |rows|
    decreases |rows|
  {
    if rows == [] then []
    else (if rows[0].id == id then [] else [rows[0]]) + RemoveId(rows[1..], id)
  }

  function Delete(t: Tables, id: nat): Tables
  {
    t.(expenses := RemoveId(t.expenses, id))
  }

  lemma {:induction false} RemoveIdAbsent(rows: seq<ExpenseRow>, id: nat)
    requires forall x :: x in rows ==> x.id != id
    ensures RemoveId(rows, id) == rows
    decreases |rows|
  {
    if rows != [] {
      assert rows[0] in rows;
      forall x | x in rows[1..]
        ensures x.id != id
      {
        assert x in rows;
      }
      RemoveIdAbsent(rows[1..], id);
      assert RemoveId(rows, id) == [rows[0]] + RemoveId(rows[1..], id);
      assert rows == [rows[0]] + rows[1..];
    }
  }

  lemma {:induction false} RemoveIdAppend(a: seq<ExpenseRow>, b: seq<ExpenseRow>, id: nat)
    ensures RemoveId(a + b, id) == RemoveId(a, id) + RemoveId(b, id)
    decreases |a|
  {
    if a == [] {
      assert a + b == b;
    } else {
      assert (a + b)[0] == a[0];
      assert (a + b)[1..] == a[1..] + b;
      RemoveIdAppend(a[1..], b, id);
    }
  }

  lemma IncreasingTail(rows: seq<ExpenseRow>)
    requires rows != [] && IdsIncreasing(rows)
    ensures IdsIncreasing(rows[1..])
    ensures forall x :: x in rows[1..] ==> rows[0].id < x.id
  {
    var rest := rows[1..];
    forall i, j | 0 <= i < j < |rest| ensures rest[i].id < rest[j].id {
      assert rest[i] == rows[i + 1] && rest[j] == rows[j + 1];
    }
    forall x | x in rest ensures rows[0].id < x.id {
      var k :| 0 <= k < |rest| && rest[k] == x;
      assert rows[k + 1] == x;
    }
  }

  lemma IncreasingCons(x: ExpenseRow, tail: seq<ExpenseRow>)
    requires IdsIncreasing(tail)
    requires forall y :: y in tail ==> x.id < y.id
    ensures IdsIncreasing([x] + tail)
  {
    var r := [x] + tail;
    forall i, j | 0 <= i < j < |r| ensures r[i].id < r[j].id {
      assert r[j] == tail[j - 1];
      assert tail[j - 1] in tail;
      if i > 0 {
        assert r[i] == tail[i - 1];
      }
    }
  }

  lemma {:induction false} RemoveIdKeepsIncreasing(rows: seq<ExpenseRow>, id: nat)
    requires IdsIncreasing(rows)
    ensures IdsIncreasing(RemoveId(rows, id))
    decreases |rows|
  {
    if rows != [] {
      IncreasingTail(rows);
      RemoveIdKeepsIncreasing(rows[1..], id);
      if rows[0].id != id {
        IncreasingCons(rows[0], RemoveId(rows[1..], id));
      }
    }
  }

  /** Deletion removes only the rows with that id, and an unknown id changes nothing. */
  lemma DeleteOnlyThatRow(t: Tables, id: nat)
    requires WellFormed(t)
    ensures WellFormed(Delete(t, id))
    ensures forall x :: x in Delete(t, id).expenses <==> x in t.expenses && x.id != id
    ensures (forall x :: x in t.expenses ==> x.id != id) ==> Delete(t, id) == t
    ensures Delete(t, id).daily == t.daily && Delete(t, id).nextId == t.nextId
    ensures Delete(t, id).periodStatus == t.periodStatus
  {
    RemoveIdKeepsIncreasing(t.expenses, id);
    if forall x :: x in t.expenses ==> x.id != id {
      RemoveIdAbsent(t.expenses, id);
    }
  }

  // ---------------------------------------------------------------------------
  // period_status

  /** `getPeriodStatus`: the stored flag decoded, false for a period never set. */
  function StatusOf(t: Tables, period: string): (b: bool)
    ensures period !in t.periodStatus ==> !b
    ensures period in t.periodStatus ==> (b <==> t.periodStatus[period] != 0)
  {
    period in t.periodStatus && DecodeBool(t.periodStatus[period])
  }

  /** `setPeriodStatus`: INSERT OR REPLACE of the encoded flag. */
  function SetStatus(t: Tables, period: string, isFullyPaid: bool): Tables
  {
    t.(periodStatus := t.periodStatus[period := EncodeBool(isFullyPaid)])
  }

  lemma SetStatusRoundTrip(t: Tables, period: string, isFullyPaid: bool, other: string)
    requires other != period
    ensures StatusOf(SetStatus(t, period, isFullyPaid), period) == isFullyPaid
    ensures StatusOf(SetStatus(t, period, isFullyPaid), other) == StatusOf(t, other)
    ensures SetStatus(t, period, isFullyPaid).daily == t.daily
    ensures SetStatus(t, period, isFullyPaid).expenses == t.expenses
  {
  }

  lemma SetStatusKeepsWellFormed(t: Tables, period: string, isFullyPaid: bool)
    requires WellFormed(t)
    ensures WellFormed(SetStatus(t, period, isFullyPaid))
  {
  }

  // ---------------------------------------------------------------------------
  // Histories of writes

  /** One write the application can issue against the tables. */
  datatype Op =
    | SaveDailyOp(record: DailyRecord)
    | InsertOp(e: Expense)
    | SetPaidOp(id: nat, isPaid: bool)
    | DeleteOp(id: nat)
    | SetStatusOp(period: string, isFullyPaid: bool)

  function Apply(t: Tables, op: Op): Tables
  {
    match op
    case SaveDailyOp(record) => SaveDaily(t, record)
    case InsertOp(e) => Insert(t, e)
    case SetPaidOp(id, isPaid) => SetPaid(t, id, isPaid)
    case DeleteOp(id) => Delete(t, id)
    case SetStatusOp(period, isFullyPaid) => SetStatus(t, period, isFullyPaid)
  }

  /** The tables after the writes `ops`, issued in order. */
  function Run(t: Tables, ops: seq<Op>): Tables
    decreases |ops|
  {
    if ops == [] then t else Run(Apply(t, ops[0]), ops[1..])
  }

  /** Every write keeps the tables well formed and never lowers the AUTOINCREMENT counter. */
  lemma ApplyKeepsCounter(t: Tables, op: Op)
    requires WellFormed(t)
    ensures WellFormed(Apply(t, op))
    ensures t.nextId <= Apply(t, op).nextId
  {
    match op
    case SaveDailyOp(record) => SaveDailyKeepsWellFormed(t, record);
    case InsertOp(e) => InsertAddsOneRow(t, e);
    case SetPaidOp(id, isPaid) => SetPaidKeepsWellFormed(t, id, isPaid); SetPaidOnlyFlag(t, id, isPaid);
    case DeleteOp(id) => DeleteOnlyThatRow(t, id);
    case SetStatusOp(period, isFullyPaid) => SetStatusKeepsWellFormed(t, period, isFullyPaid);
  }

  /**
   * Over any history of writes the tables stay well formed and the counter
   * never goes down, so every stored id stays below the counter's value at
   * any earlier point.
   */
  lemma {:induction false} RunKeepsCounter(t: Tables, ops: seq<Op>)
    requires WellFormed(t)
    ensures WellFormed(Run(t, ops))
    ensures t.nextId <= Run(t, ops).nextId
    decreases |ops|
  {
    if ops != [] {
      ApplyKeepsCounter(t, ops[0]);
      RunKeepsCounter(Apply(t, ops[0]), ops[1..]);
    }
  }

  /**
   * An id once handed out is never handed out again: whatever writes follow
   * (deleting its row included), the next insertion's id differs from it and
   * from every id still stored.
   */
  lemma IdsNeverReused(t: Tables, handedOut: nat, ops: seq<Op>, e: Expense)
    requires WellFormed(t)
    requires handedOut < t.nextId
    ensures Insert(Run(t, ops), e).expenses[|Run(t, ops).expenses|].id != handedOut
    ensures forall x :: x in Run(t, ops).expenses ==>
      x.id != Insert(Run(t, ops), e).expenses[|Run(t, ops).expenses|].id
  {
    RunKeepsCounter(t, ops);
  }

  // ---------------------------------------------------------------------------
  // SUM(amount)

  function Sum(rows: seq<ExpenseRow>): real
    decreases |rows|
  {
    if rows == [] then 0.0 else rows[0].amount + Sum(rows[1..])
  }

  lemma {:induction false} SumAppend(a: seq<ExpenseRow>, b: seq<ExpenseRow>)
    ensures Sum(a + b) == Sum(a) + Sum(b)
    decreases |a|
  {
    if a == [] {
      assert a + b == b;
    } else {
      assert (a + b)[0] == a[0];
      assert (a + b)[1..] == a[1..] + b;
      SumAppend(a[1..], b);
    }
  }

  /** SQL SUM: NULL over no rows, the arithmetic sum otherwise. */
  function SqlSum(rows: seq<ExpenseRow>): (r: Option<real>)
    ensures r.None? <==> rows == []
  {
    if rows == [] then None else Some(Sum(rows))
  }

  /**
   * `getCategoryTotal`: the sum of the amounts of the matching rows. The NULL
   * of an empty SUM becomes 0, so a period and category without rows total 0.
   */
  function CategoryTotal(t: Tables, period: string, category: string): (total: real)
    ensures total == Sum(Select(t.expenses, period, category))
    ensures Select(t.expenses, period, category) == [] ==> total == 0.0
  {
    OrZero(SqlSum(Select(t.expenses, period, category)))
  }

  /** Inserting an expense raises its own category total by its amount and no other total. */
  lemma InsertTotal(t: Tables, e: Expense, period: string, category: string)
    ensures CategoryTotal(Insert(t, e), e.period, e.category) == CategoryTotal(t, e.period, e.category) + e.amount
    ensures (period, category) != (e.period, e.category) ==>
      CategoryTotal(Insert(t, e), period, category) == CategoryTotal(t, period, category)
  {
    InsertOwnList(t, e);
    SumAppend(Select(t.expenses, e.period, e.category), [ToRow(t.nextId, e)]);
    if (period, category) != (e.period, e.category) {
      InsertOtherList(t, e, period, category);
    }
  }

  /** Adding an expense and then deleting it by its new id restores every table except the counter. */
  lemma InsertThenDelete(t: Tables, e: Expense, period: string, category: string)
    requires WellFormed(t)
    ensures Delete(Insert(t, e), t.nextId) == t.(nextId := t.nextId + 1)
    ensures CategoryTotal(Delete(Insert(t, e), t.nextId), period, category) == CategoryTotal(t, period, category)
  {
    var row := ToRow(t.nextId, e);
    RemoveIdAppend(t.expenses, [row], t.nextId);
    RemoveIdAbsent(t.expenses, t.nextId);
    assert RemoveId([row], t.nextId) == [];
    assert t.expenses + [] == t.expenses;
  }

  // ---------------------------------------------------------------------------
  // The engine as a stateful object

  /** The open database: the three tables as fields, and the AUTOINCREMENT counter. */
  class Database {
    var daily: map<string, DailyRecord>
    var expenses: seq<ExpenseRow>
    var nextId: nat
    var periodStatus: map<string, int>

    function Abs(): Tables
      reads this
    {
      Tables(daily, expenses, nextId, periodStatus)
    }

    ghost predicate Valid()
      reads this
    {
      WellFormed(Abs())
    }

    /** A database file on which the migration has just created the empty tables. */
    constructor ()
      ensures Valid() && Abs() == EmptyTables
    {
      daily := map[];
      expenses := [];
      nextId := 1;
      periodStatus := map[];
    }

    method GetDailyRecord(date: string) returns (r: Option<DailyRecord>)
      ensures r == GetDaily(Abs(), date)
    {
      if date in daily {
        r := Some(daily[date]);
      } else {
        r := None;
      }
    }

    method SaveDailyRecord(record: DailyRecord)
      requires Valid()
      modifies this
      ensures Valid() && Abs() == SaveDaily(old(Abs()), record)
    {
      SaveDailyKeepsWellFormed(Abs(), record);
      daily := daily[record.date := record];
    }

    method GetExpenses(period: string, category: string) returns (r: seq<Expense>)
      ensures r == ListExpenses(Abs(), period, category)
    {
      r := DecodeRows(Select(expenses, period, category));
    }

    method AddExpense(e: Expense)
      requires Valid()
      modifies this
      ensures Valid() && Abs() == Insert(old(Abs()), e)
    {
      InsertAddsOneRow(Abs(), e);
      expenses := expenses + [ToRow(nextId, e)];
      nextId := nextId + 1;
    }

    method UpdateExpensePaidStatus(id: nat, isPaid: bool)
      requires Valid()
      modifies this
      ensures Valid() && Abs() == SetPaid(old(Abs()), id, isPaid)
    {
      SetPaidKeepsWellFormed(Abs(), id, isPaid);
      expenses := UpdatePaid(expenses, id, EncodeBool(isPaid));
    }

    method DeleteExpense(id: nat)
      requires Valid()
      modifies this
      ensures Valid() && Abs() == Delete(old(Abs()), id)
    {
      DeleteOnlyThatRow(Abs(), id);
      expenses := RemoveId(expenses, id);
    }

    method GetPeriodStatus(period: string) returns (b: bool)
      ensures b == StatusOf(Abs(), period)
    {
      b := period in periodStatus && DecodeBool(periodStatus[period]);
    }

    method SetPeriodStatus(period: string, isFullyPaid: bool)
      requires Valid()
      modifies this
      ensures Valid() && Abs() == SetStatus(old(Abs()), period, isFullyPaid)
    {
      periodStatus := periodStatus[period := EncodeBool(isFullyPaid)];
    }

    method GetCategoryTotal(period: string, category: string) returns (total: real)
      ensures total == CategoryTotal(Abs(), period, category)
    {
      total := OrZero(SqlSum(Select(expenses, period, category)));
    }
  }
}
