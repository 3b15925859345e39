/**
 * The monthly expense page: choosing a year, a month and a category, the
 * list of that period's expenses with their paid flags, adding and deleting
 * expenses, the month-wide "all paid" flag and the market summary with the
 * totals of every category.
 *
 * The React state is the datatype `GiderState`; transitions that do not
 * touch the database are functions, and the handlers that do are methods
 * over a `Database`.
 */
module GiderPage {
  import opened Wrappers
  import opened Storage
  import opened PeriodText

  /** The year the page starts at and never goes below. */
  const MinYear := 2026

  /** The category whose page is the market summary rather than a plain list. */
  const MarketCategory := "MARKET GİDERLERİ"

  /** The ids of the six expense categories, in the order the page shows them. */
  const CategoryIds: seq<string> :=
    ["ELEKTRİK", "İNTERNET", "BAĞKUR", "CEP TELEFONLARI", "DOĞAL GAZ", MarketCategory]

  datatype View = PeriodSelect | Categories | ExpenseList | MarketSummary

  /**
   * The modal's partially filled expense. `amount` is the value of
   * `Number(formData.amount)`, None standing for NaN (nothing typed).
   */
  datatype Form = Form(
    title: Option<string>,
    number: Option<string>,
    amount: Option<real>,
    isPaid: Option<bool>,
    subCategory: Option<string>)

  const EmptyForm := Form(None, None, None, None, None)

  datatype GiderState = GiderState(
    view: View,
    year: int,
    selectedMonth: Option<Month>,
    selectedCategory: Option<string>,
    expenses: seq<Expense>,
    periodStatus: bool,
    periodStatusMap: map<string, bool>,
    categoryTotals: seq<(string, real)>,
    showModal: bool,
    formData: Form)

  const Initial := GiderState(PeriodSelect, MinYear, None, None, [], false, map[], [], false, EmptyForm)

  // ---------------------------------------------------------------------------
  // The current period and the year browser

  /** `periodStr`: the key of the selected month of the shown year, "" while no month is selected. */
  function PeriodStr(s: GiderState): (p: string)
    ensures p == "" <==> s.selectedMonth.None?
    ensures s.selectedMonth.Some? ==> p == PeriodOf(s.year, s.selectedMonth.value)
  {
    match s.selectedMonth
    case None => ""
    case Some(m) => PeriodOf(s.year, m)
  }

  /** The previous-year button: `Math.max(2026, y - 1)`. */
  function PrevYear(year: int): (y: int)
    ensures y >= MinYear
    ensures year > MinYear ==> y == year - 1
    ensures year <= MinYear ==> y == MinYear
  {
    if year - 1 >= MinYear then year - 1 else MinYear
  }

  /** The next-year button: no upper bound. */
  function NextYear(year: int): (y: int)
    ensures y == year + 1
  {
    year + 1
  }

  datatype YearStep = Back | Forward

  function Browse(year: int, steps: seq<YearStep>): int
    decreases |steps|
  {
    if steps == [] then year
    else Browse(if steps[0] == Back then PrevYear(year) else NextYear(year), steps[1..])
  }

  /** However the two buttons are pressed, the year never drops below 2026 and rises by at most one per press. */
  lemma {:induction false} BrowseStaysInRange(year: int, steps: seq<YearStep>)
    requires year >= MinYear
    ensures MinYear <= Browse(year, steps) <= year + |steps|
    decreases |steps|
  {
    if steps != [] {
      var next := if steps[0] == Back then PrevYear(year) else NextYear(year);
      BrowseStaysInRange(next, steps[1..]);
    }
  }

  // ---------------------------------------------------------------------------
  // Navigation

  /** `handleMonthSelect`: select the month and show the category grid. */
  function MonthSelect(s: GiderState, m: Month): (s': GiderState)
    ensures s'.view == Categories
    ensures PeriodStr(s') == PeriodOf(s.year, m)
    ensures s'.selectedCategory == s.selectedCategory && s'.year == s.year
  {
    s.(selectedMonth := Some(m), view := Categories)
  }

  /** `handleCategorySelect`: the market category opens the summary, every other one the plain list. */
  function CategorySelect(s: GiderState, category: string): (s': GiderState)
    ensures s'.selectedCategory == Some(category)
    ensures s'.view == MarketSummary <==> category == MarketCategory
    ensures s'.view == ExpenseList <==> category != MarketCategory
    ensures PeriodStr(s') == PeriodStr(s)
  {
    s.(selectedCategory := Some(category),
       view := if category == MarketCategory then MarketSummary else ExpenseList)
  }

  /** The back arrow of the category grid. */
  function BackToPeriods(s: GiderState): (s': GiderState)
    ensures s'.view == PeriodSelect && PeriodStr(s') == PeriodStr(s)
  {
    s.(view := PeriodSelect)
  }

  /** The back arrow of a list or of the summary. */
  function BackToCategories(s: GiderState): (s': GiderState)
    ensures s'.view == Categories && PeriodStr(s') == PeriodStr(s)
  {
    s.(view := Categories)
  }

  /** `otherCategories`: every category except the market one, in order. */
  function WithoutMarket(cats: seq<string>): (r: seq<string>)
    ensures forall c :: c in r <==> c in cats && c != MarketCategory
    ensures |r| <= |cats|
    decreases |cats|
  {
    if cats == [] then []
    else (if cats[0] == MarketCategory then [] else [cats[0]]) + WithoutMarket(cats[1..])
  }

  lemma {:induction false} WithoutMarketLast(cats: seq<string>)
    requires MarketCategory !in cats
    ensures WithoutMarket(cats + [MarketCategory]) == cats
    decreases |cats|
  {
    if cats == [] {
      assert WithoutMarket([MarketCategory]) == [] + WithoutMarket([]);
    } else {
      assert (cats + [MarketCategory])[1..] == cats[1..] + [MarketCategory];
      WithoutMarketLast(cats[1..]);
    }
  }

  /** The summary's side panel lists the first five categories, in the order of the grid. */
  lemma OtherCategoriesAreFirstFive()
    ensures WithoutMarket(CategoryIds) == CategoryIds[..5]
  {
    assert CategoryIds == CategoryIds[..5] + [MarketCategory];
    WithoutMarketLast(CategoryIds[..5]);
  }

  // ---------------------------------------------------------------------------
  // Loading

  /** `!selectedCategory` in JavaScript: no category, or the empty string. */
  predicate HasCategory(s: GiderState)
  {
    s.selectedCategory.Some? && s.selectedCategory.value != ""
  }

  /** The guard of `loadExpenses` and `handleModalSubmit`: a category and a period are both chosen. */
  predicate CanLoad(s: GiderState)
  {
    HasCategory(s) && PeriodStr(s) != ""
  }

  /** What `loadExpenses` leaves in `expenses`: the period's list when it may load, the old list otherwise. */
  function LoadedExpenses(t: Tables, s: GiderState): seq<Expense>
  {
    if CanLoad(s) then ListExpenses(t, PeriodStr(s), s.selectedCategory.value) else s.expenses
  }

  method LoadExpenses(db: Database, s: GiderState) returns (s': GiderState)
    ensures s' == s.(expenses := LoadedExpenses(db.Abs(), s))
    ensures CanLoad(s) ==> forall x :: x in s'.expenses ==>
      x.period == PeriodStr(s) && x.category == s.selectedCategory.value && x.id.Some?
    ensures !CanLoad(s) ==> s' == s
  {
    if !HasCategory(s) || PeriodStr(s) == "" {
      return s;
    }
    var p := PeriodStr(s);
    var data := db.GetExpenses(p, s.selectedCategory.value);
    s' := s.(expenses := data);
    ListExpensesExact(db.Abs(), p, s.selectedCategory.value);
  }

  /** The twelve period keys of a year. */
  function YearPeriods(year: int): set<string>
  {
    PeriodsBelow(year, 12)
  }

  /** The keys of the first `n` months of a year. */
  function PeriodsBelow(year: int, n: nat): set<string>
    requires n <= 12
  {
    set m: Month | m < n :: PeriodOf(year, m)
  }

  lemma PeriodsBelowStep(year: int, n: nat)
    requires n < 12
    ensures PeriodsBelow(year, n + 1) == PeriodsBelow(year, n) + {PeriodOf(year, n)}
    ensures PeriodOf(year, n) !in PeriodsBelow(year, n)
  {
    forall m: Month | m < n
      ensures PeriodOf(year, m) != PeriodOf(year, n)
    {
      MonthsOfYearDistinct(year, m, n);
    }
  }

  /** The first `n` months have `n` different keys. */
  lemma {:induction false} PeriodsBelowSize(year: int, n: nat)
    requires n <= 12
    ensures |PeriodsBelow(year, n)| == n
    decreases n
  {
    if n == 0 {
      assert PeriodsBelow(year, 0) == {};
    } else {
      PeriodsBelowSize(year, n - 1);
      PeriodsBelowStep(year, n - 1);
    }
  }

  /** After `n` steps of the status loop: the first `n` months of the year, each with its stored flag. */
  ghost predicate Scanned(statuses: map<string, bool>, t: Tables, year: int, n: nat)
    requires n <= 12
  {
    && statuses.Keys == PeriodsBelow(year, n)
    && forall m: Month :: m < n ==> PeriodOf(year, m) in statuses && statuses[PeriodOf(year, m)] == StatusOf(t, PeriodOf(year, m))
  }

  lemma ScanStep(statuses: map<string, bool>, t: Tables, year: int, n: nat)
    requires n < 12 && Scanned(statuses, t, year, n)
    ensures Scanned(statuses[PeriodOf(year, n) := StatusOf(t, PeriodOf(year, n))], t, year, n + 1)
  {
    var p := PeriodOf(year, n);
    PeriodsBelowStep(year, n);
    var next := statuses[p := StatusOf(t, p)];
    assert next.Keys == PeriodsBelow(year, n + 1);
  }

  /** The year effect: the paid flag of each of the twelve months of `year`, keyed by period. */
  method LoadStatuses(db: Database, year: int) returns (statuses: map<string, bool>)
    ensures statuses.Keys == YearPeriods(year)
    ensures |statuses| == 12
    ensures forall m: Month :: statuses[PeriodOf(year, m)] == StatusOf(db.Abs(), PeriodOf(year, m))
  {
    statuses := map[];
    for i := 0 to 12
      invariant Scanned(statuses, db.Abs(), year, i)
    {
      var p := PeriodOf(year, i);
      var status := db.GetPeriodStatus(p);
      ScanStep(statuses, db.Abs(), year, i);
      statuses := statuses[p := status];
    }
    PeriodsBelowSize(year, 12);
  }

  /** The totals loop of the market summary: each category's total for `period`, in grid order. */
  method LoadCategoryTotals(db: Database, period: string) returns (totals: seq<(string, real)>)
    ensures |totals| == |CategoryIds|
    ensures forall i :: 0 <= i < |totals| ==>
      totals[i] == (CategoryIds[i], CategoryTotal(db.Abs(), period, CategoryIds[i]))
  {
    totals := [];
    for i := 0 to |CategoryIds|
      invariant |totals| == i
      invariant forall k :: 0 <= k < i ==> totals[k] == (CategoryIds[k], CategoryTotal(db.Abs(), period, CategoryIds[k]))
    {
      var total := db.GetCategoryTotal(period, CategoryIds[i]);
      totals := totals + [(CategoryIds[i], total)];
    }
  }

  /** The effect on view, category and period: reload the list, the summary totals and the month's flag as the view needs. */
  method RefreshView(db: Database, s: GiderState) returns (s': GiderState)
    ensures s'.expenses ==
      if s.view == ExpenseList || s.view == MarketSummary then LoadedExpenses(db.Abs(), s) else s.expenses
    ensures s'.categoryTotals == s.categoryTotals <== !(s.view == MarketSummary && PeriodStr(s) != "")
    ensures s.view == MarketSummary && PeriodStr(s) != "" ==>
      GrossTotal(s'.categoryTotals) == KnownCategoriesTotal(db.Abs().expenses, PeriodStr(s))
    ensures s.view == MarketSummary && PeriodStr(s) != "" ==>
      && |s'.categoryTotals| == |CategoryIds|
      && forall i :: 0 <= i < |CategoryIds| ==>
        s'.categoryTotals[i] == (CategoryIds[i], CategoryTotal(db.Abs(), PeriodStr(s), CategoryIds[i]))
    ensures s'.periodStatus == if PeriodStr(s) != "" then StatusOf(db.Abs(), PeriodStr(s)) else s.periodStatus
    ensures s' == s.(expenses := s'.expenses, categoryTotals := s'.categoryTotals, periodStatus := s'.periodStatus)
  {
    s' := s;
    if s.view == ExpenseList || s.view == MarketSummary {
      s' := LoadExpenses(db, s);
    }
    var p := PeriodStr(s);
    if s.view == MarketSummary && p != "" {
      var totals := LoadCategoryTotals(db, p);
      s' := s'.(categoryTotals := totals);
      MarketGrossTotal(db.Abs(), p, totals);
    }
    if p != "" {
      var status := db.GetPeriodStatus(p);
      s' := s'.(periodStatus := status);
    }
  }

  /** The year buttons, followed by the year effect reloading the twelve month flags. */
  /**
   * The page as it mounts: the initial state, with the `[year]` effect's
   * first run filling in the twelve month flags of 2026. The view effect
   * that also runs at mount loads nothing yet, as no month or category is
   * selected.
   */
  method Mount(db: Database) returns (s: GiderState)
    ensures s.periodStatusMap.Keys == YearPeriods(MinYear)
    ensures StatusMapInSync(s.periodStatusMap, db.Abs())
    ensures s == Initial.(periodStatusMap := s.periodStatusMap)
  {
    var statuses := LoadStatuses(db, MinYear);
    s := Initial.(periodStatusMap := statuses);
  }

  method ChangeYear(db: Database, s: GiderState, step: YearStep) returns (s': GiderState)
    ensures s'.year == if step == Back then PrevYear(s.year) else NextYear(s.year)
    ensures s'.periodStatusMap.Keys == YearPeriods(s'.year)
    ensures StatusMapInSync(s'.periodStatusMap, db.Abs())
    ensures s' == s.(year := s'.year, periodStatusMap := s'.periodStatusMap)
  {
    var year := if step == Back then PrevYear(s.year) else NextYear(s.year);
    var statuses := LoadStatuses(db, year);
    s' := s.(year := year, periodStatusMap := statuses);
  }

  // ---------------------------------------------------------------------------
  // Totals

  /** `currentViewTotal`: the sum of the listed amounts. */
  function ViewTotal(list: seq<Expense>): real
    decreases |list|
  {
    if list == [] then 0.0 else list[0].amount + ViewTotal(list[1..])
  }

  lemma {:induction false} ViewTotalOfRows(rows: seq<ExpenseRow>)
    ensures ViewTotal(DecodeRows(rows)) == Sum(rows)
    decreases |rows|
  {
    if rows != [] {
      assert DecodeRows(rows)[1..] == DecodeRows(rows[1..]);
      ViewTotalOfRows(rows[1..]);
    }
  }

  /** The total under a list equals the SQL total of its period and category. */
  lemma ViewTotalIsCategoryTotal(t: Tables, period: string, category: string)
    ensures ViewTotal(ListExpenses(t, period, category)) == CategoryTotal(t, period, category)
  {
    ViewTotalOfRows(Select(t.expenses, period, category));
  }

  /** `grossTotal`: the sum of the values of `categoryTotals`. */
  function GrossTotal(totals: seq<(string, real)>): real
    decreases |totals|
  {
    if totals == [] then 0.0 else totals[0].1 + GrossTotal(totals[1..])
  }

  /** The sum of the amounts of the rows of `period` whose category is one of `cats`. */
  function RowsIn(rows: seq<ExpenseRow>, period: string, cats: seq<string>): real
    decreases |rows|
  {
    if rows == [] then 0.0
    else
      (if rows[0].period == period && rows[0].category in cats then rows[0].amount else 0.0)
      + RowsIn(rows[1..], period, cats)
  }

  /** The sum over the rows of `period` whose category is one of the six categories. */
  function KnownCategoriesTotal(rows: seq<ExpenseRow>, period: string): real
  {
    RowsIn(rows, period, CategoryIds)
  }

  predicate Distinct(cats: seq<string>)
  {
    forall i, j :: 0 <= i < j < |cats| ==> cats[i] != cats[j]
  }

  lemma {:induction false} RowsInCons(rows: seq<ExpenseRow>, period: string, c: string, rest: seq<string>)
    requires c !in rest
    ensures RowsIn(rows, period, [c] + rest) == Sum(Select(rows, period, c)) + RowsIn(rows, period, rest)
    decreases |rows|
  {
    if rows != [] {
      RowsInCons(rows[1..], period, c, rest);
      var head := if rows[0].period == period && rows[0].category == c then [rows[0]] else [];
      SumAppend(head, Select(rows[1..], period, c));
    }
  }

  /** A totals list built category by category sums to the total of the rows in those categories. */
  lemma {:induction false} GrossTotalOf(t: Tables, period: string, cats: seq<string>, totals: seq<(string, real)>)
    requires Distinct(cats)
    requires |totals| == |cats|
    requires forall i :: 0 <= i < |cats| ==> totals[i] == (cats[i], CategoryTotal(t, period, cats[i]))
    ensures GrossTotal(totals) == RowsIn(t.expenses, period, cats)
    decreases |cats|
  {
    if cats == [] {
      RowsInNone(t.expenses, period);
    } else {
      var rest := cats[1..];
      assert cats[0] !in rest by {
        forall j | 0 <= j < |rest| ensures rest[j] != cats[0] {
          assert rest[j] == cats[j + 1];
        }
      }
      forall i, j | 0 <= i < j < |rest| ensures rest[i] != rest[j] {
        assert rest[i] == cats[i + 1] && rest[j] == cats[j + 1];
      }
      forall i | 0 <= i < |rest| ensures totals[1..][i] == (rest[i], CategoryTotal(t, period, rest[i])) {
        assert totals[1..][i] == totals[i + 1];
      }
      GrossTotalOf(t, period, rest, totals[1..]);
      RowsInCons(t.expenses, period, cats[0], rest);
      assert [cats[0]] + rest == cats;
    }
  }

  lemma {:induction false} RowsInNone(rows: seq<ExpenseRow>, period: string)
    ensures RowsIn(rows, period, []) == 0.0
    decreases |rows|
  {
    if rows != [] {
      RowsInNone(rows[1..], period);
    }
  }

  lemma CategoryIdsDistinct()
    ensures Distinct(CategoryIds)
  {
  }

  /** The summary's gross total is the sum of every expense of the period whose category is one of the six. */
  lemma MarketGrossTotal(t: Tables, period: string, totals: seq<(string, real)>)
    requires |totals| == |CategoryIds|
    requires forall i :: 0 <= i < |CategoryIds| ==>
      totals[i] == (CategoryIds[i], CategoryTotal(t, period, CategoryIds[i]))
    ensures GrossTotal(totals) == KnownCategoriesTotal(t.expenses, period)
  {
    CategoryIdsDistinct();
    GrossTotalOf(t, period, CategoryIds, totals);
  }

  // ---------------------------------------------------------------------------
  // Paid flags

  /** Every flag the month grid shows is the stored flag of its period. */
  ghost predicate StatusMapInSync(statuses: map<string, bool>, t: Tables)
  {
    forall p :: p in statuses ==> statuses[p] == StatusOf(t, p)
  }

  /** The page's flags agree with the database: the month grid, and the open month's own flag. */
  ghost predicate InSync(s: GiderState, t: Tables)
  {
    && StatusMapInSync(s.periodStatusMap, t)
    && (PeriodStr(s) != "" ==> s.periodStatus == StatusOf(t, PeriodStr(s)))
  }

  /**
   * The page side of `handleTogglePeriodPaid`: without a period nothing
   * changes; otherwise the month's flag is negated, and so is its entry in the
   * month grid, which no other entry follows.
   */
  function TogglePeriod(s: GiderState): (s': GiderState)
    ensures PeriodStr(s) == "" ==> s' == s
    ensures PeriodStr(s) != "" ==> s'.periodStatus == !s.periodStatus
    ensures PeriodStr(s) != "" ==> PeriodStr(s) in s'.periodStatusMap && s'.periodStatusMap[PeriodStr(s)] == !s.periodStatus
    ensures forall p :: p != PeriodStr(s) ==>
      (p in s'.periodStatusMap <==> p in s.periodStatusMap) &&
      (p in s.periodStatusMap ==> s'.periodStatusMap[p] == s.periodStatusMap[p])
    ensures PeriodStr(s') == PeriodStr(s)
  {
    var p := PeriodStr(s);
    if p == "" then s
    else s.(periodStatus := !s.periodStatus, periodStatusMap := s.periodStatusMap[p := !s.periodStatus])
  }

  /** The database side of `handleTogglePeriodPaid`. */
  function TogglePeriodTables(s: GiderState, t: Tables): Tables
  {
    if PeriodStr(s) == "" then t else SetStatus(t, PeriodStr(s), !s.periodStatus)
  }

  /** Toggling the month's flag keeps page and database in agreement, and flips the stored flag. */
  lemma TogglePeriodKeepsInSync(s: GiderState, t: Tables)
    requires InSync(s, t)
    ensures InSync(TogglePeriod(s), TogglePeriodTables(s, t))
    ensures PeriodStr(s) != "" ==> StatusOf(TogglePeriodTables(s, t), PeriodStr(s)) == !StatusOf(t, PeriodStr(s))
  {
    var p := PeriodStr(s);
    if p != "" {
      var t' := TogglePeriodTables(s, t);
      var m' := TogglePeriod(s).periodStatusMap;
      forall q | q in m' ensures m'[q] == StatusOf(t', q) {
        if q != p {
          SetStatusRoundTrip(t, p, !s.periodStatus, q);
        }
      }
    }
  }

  /** Toggling twice from an agreeing state gives back both the page and the database flags. */
  lemma TogglePeriodTwice(s: GiderState, t: Tables)
    requires InSync(s, t) && PeriodStr(s) != ""
    requires PeriodStr(s) in s.periodStatusMap
    ensures TogglePeriod(TogglePeriod(s)) == s
    ensures StatusOf(TogglePeriodTables(TogglePeriod(s), TogglePeriodTables(s, t)), PeriodStr(s)) == StatusOf(t, PeriodStr(s))
  {
    var p := PeriodStr(s);
    var s1 := TogglePeriod(s);
    assert s1 == s.(periodStatus := !s.periodStatus, periodStatusMap := s.periodStatusMap[p := !s.periodStatus]);
    assert s.periodStatusMap[p := !s.periodStatus][p := s.periodStatus] == s.periodStatusMap;
    var t1 := TogglePeriodTables(s, t);
    assert TogglePeriodTables(s1, t1) == SetStatus(t1, p, s.periodStatus);
  }

  /** Coming back from the database after a refresh, the page's flags agree with it. */
  lemma RefreshedIsInSync(s: GiderState, t: Tables, statuses: map<string, bool>)
    requires StatusMapInSync(statuses, t)
    requires PeriodStr(s) != "" ==> s.periodStatus == StatusOf(t, PeriodStr(s))
    ensures InSync(s.(periodStatusMap := statuses), t)
  {
  }

  method HandleTogglePeriodPaid(db: Database, s: GiderState) returns (s': GiderState)
    requires db.Valid()
    modifies db
    ensures db.Valid()
    ensures s' == TogglePeriod(s)
    ensures db.Abs() == TogglePeriodTables(s, old(db.Abs()))
  {
    var p := PeriodStr(s);
    if p == "" {
      return s;
    }
    var newValue := !s.periodStatus;
    SetStatusKeepsWellFormed(db.Abs(), p, newValue);
    db.SetPeriodStatus(p, newValue);
    s' := s.(periodStatus := newValue, periodStatusMap := s.periodStatusMap[p := newValue]);
  }

  /** `handleTogglePaid(id, current)`: store the negated flag, then reload the list. */
  method HandleTogglePaid(db: Database, s: GiderState, id: nat, current: bool) returns (s': GiderState)
    requires db.Valid()
    modifies db
    ensures db.Valid()
    ensures db.Abs() == SetPaid(old(db.Abs()), id, !current)
    ensures s' == s.(expenses := LoadedExpenses(db.Abs(), s))
  {
    db.UpdateExpensePaidStatus(id, !current);
    s' := LoadExpenses(db, s);
  }

  /** After a paid-flag toggle, the reloaded list shows that expense with the negated flag. */
  lemma TogglePaidShown(t: Tables, s: GiderState, id: nat, current: bool)
    requires CanLoad(s)
    ensures forall x :: x in LoadedExpenses(SetPaid(t, id, !current), s) && x.id == Some(id) ==> x.isPaid == !current
  {
    var t' := SetPaid(t, id, !current);
    ListExpensesExact(t', PeriodStr(s), s.selectedCategory.value);
    SetPaidFlag(t, id, !current);
  }

  // ---------------------------------------------------------------------------
  // Adding and deleting

  /**
   * The expense `handleModalSubmit` builds: title `|| ''`, amount `|| 0`,
   * `is_paid || false`; number and sub-category as typed.
   */
  function BuildExpense(period: string, category: string, form: Form): (e: Expense)
    ensures e.id.None? && e.period == period && e.category == category
    ensures e.number == form.number && e.subCategory == form.subCategory
  {
    Expense(None, period, category, form.subCategory, form.title.GetOr(""), form.number,
            OrZero(form.amount), form.isPaid.GetOr(false))
  }

  /** An untouched form adds an unpaid expense with an empty title and amount 0. */
  lemma EmptyFormDefaults(period: string, category: string)
    ensures BuildExpense(period, category, EmptyForm) == Expense(None, period, category, None, "", None, 0.0, false)
  {
  }

  /** The database side of `handleModalSubmit`: nothing without a period and category, otherwise one insert. */
  function SubmitTables(s: GiderState, t: Tables): Tables
  {
    if CanLoad(s) then Insert(t, BuildExpense(PeriodStr(s), s.selectedCategory.value, s.formData)) else t
  }

  /** The page side of `handleModalSubmit`: close and clear the form, and reload the list. */
  function SubmitState(s: GiderState, t': Tables): GiderState
  {
    if CanLoad(s) then s.(showModal := false, formData := EmptyForm, expenses := LoadedExpenses(t', s)) else s
  }

  method HandleModalSubmit(db: Database, s: GiderState) returns (s': GiderState)
    requires db.Valid()
    modifies db
    ensures db.Valid()
    ensures db.Abs() == SubmitTables(s, old(db.Abs()))
    ensures s' == SubmitState(s, db.Abs())
  {
    if PeriodStr(s) == "" || !HasCategory(s) {
      return s;
    }
    var e := BuildExpense(PeriodStr(s), s.selectedCategory.value, s.formData);
    db.AddExpense(e);
    var closed := s.(showModal := false, formData := EmptyForm);
    var loaded := LoadExpenses(db, s);
    s' := closed.(expenses := loaded.expenses);
  }

  /**
   * After a submit the list is the old list followed by the new expense, as
   * read back: its new id, its title or "", its amount or 0, its flag or
   * unpaid, and empty optional strings as null.
   */
  lemma SubmitAppendsExpense(s: GiderState, t: Tables)
    requires CanLoad(s)
    ensures SubmitState(s, SubmitTables(s, t)).expenses ==
      LoadedExpenses(t, s) + [Expense(Some(t.nextId), PeriodStr(s), s.selectedCategory.value,
        NullIfEmpty(s.formData.subCategory), s.formData.title.GetOr(""), NullIfEmpty(s.formData.number),
        OrZero(s.formData.amount), s.formData.isPaid.GetOr(false))]
    ensures !SubmitState(s, SubmitTables(s, t)).showModal
    ensures SubmitState(s, SubmitTables(s, t)).formData == EmptyForm
  {
    var e := BuildExpense(PeriodStr(s), s.selectedCategory.value, s.formData);
    InsertList(t, e, e.period, e.category);
    ToRowRoundTrip(t.nextId, e);
  }

  /** The database side of `handleDelete`: only a confirmed deletion reaches the database. */
  function DeleteTables(t: Tables, id: nat, confirmed: bool): Tables
  {
    if confirmed then Delete(t, id) else t
  }

  /** `handleDelete(id)`, `confirmed` being the answer to the confirmation dialog. */
  method HandleDelete(db: Database, s: GiderState, id: nat, confirmed: bool) returns (s': GiderState)
    requires db.Valid()
    modifies db
    ensures db.Valid()
    ensures db.Abs() == DeleteTables(old(db.Abs()), id, confirmed)
    ensures !confirmed ==> s' == s
    ensures confirmed ==> s' == s.(expenses := LoadedExpenses(db.Abs(), s))
  {
    if !confirmed {
      return s;
    }
    db.DeleteExpense(id);
    s' := LoadExpenses(db, s);
  }

  /** After a confirmed deletion the reloaded list no longer holds that id, and keeps every other expense. */
  lemma DeletedNotListed(t: Tables, s: GiderState, id: nat)
    requires WellFormed(t) && CanLoad(s)
    ensures forall x :: x in LoadedExpenses(DeleteTables(t, id, true), s) ==> x.id != Some(id)
    ensures forall x :: x in LoadedExpenses(t, s) && x.id != Some(id) ==> x in LoadedExpenses(DeleteTables(t, id, true), s)
  {
    var p := PeriodStr(s);
    var c := s.selectedCategory.value;
    var t' := Delete(t, id);
    DeleteOnlyThatRow(t, id);
    ListExpensesExact(t, p, c);
    ListExpensesExact(t', p, c);
    forall x | x in LoadedExpenses(t, s) && x.id != Some(id) ensures x in LoadedExpenses(t', s) {
      var r :| r in t.expenses && x == FromRow(r);
      assert r in t'.expenses;
    }
  }
}
