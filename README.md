# Market bookkeeping: a verified Dafny model

This project models the data layer and page logic of a small desktop bookkeeping tool for a shop. The tool is a Tauri shell with a React front end over one SQLite database. It has three parts:

- a daily **cash reconciliation** (Cari). The main till and the computer till each record a cash and a card amount per date. The page shows the two totals, their difference, and whether that difference is a surplus (FAZLALIK), a shortage (AÇIK) or neutral (NÖTR).
- a monthly **expense book** (Gider). Expenses are kept per `YYYY-MM` period and per category. Each has a paid flag, and each month has an "all paid" flag. The market category has a summary page with the totals of every category.
- a **backup protocol**. The shell takes a daily backup at start-up and a manual timestamped backup on request. It can also restore a chosen file over the live database.

Modules, one per file:

| file | module | models |
|---|---|---|
| `wrappers.dfy` | `Wrappers` | `Option` and `Result` |
| `storage.dfy` | `Storage` | the tables and their operations (`src/lib/db.ts`): a `Tables` value with pure transitions, and the class `Database`, whose methods are proved to perform exactly those transitions |
| `schema.dfy` | `Schema` | the migration (`src-tauri/src/db.rs`): column keys, NOT NULL, defaults and AUTOINCREMENT, and what a plain or OR REPLACE INSERT does to a stored table. It also shows that the engine's tables are exactly what the code's INSERTs produce, one row per key |
| `cari.dfy` | `CariPage` | the reconciliation page (`src/pages/CariPage.tsx`) |
| `period.dfy` | `PeriodText` | the `YYYY-MM` period key the expense page builds |
| `gider.dfy` | `GiderPage` | the expense page (`src/pages/GiderPage.tsx`) |
| `backup.dfy` | `Backup` | `src-tauri/src/backup.rs`: a class `FileSystem` over a map from paths to bytes, the three commands as methods, and their outcomes as functions of the old file map |

How the model represents things:

- **Amounts** are `real`.
- **Nullable REAL columns** are `Option<real>`. JavaScript's `x || 0` is `OrZero`.
- **Booleans** are written as `1`/`0` and read back with `Boolean()`, that is `!= 0`.
- **React page state** is a datatype, and page transitions are functions of it. A handler that calls the database is a method taking the `Database`.
- **`parseFloat`/`Number`** become a parameter of type `Option<real>`; None stands for NaN.
- **File operations** take, as a parameter, how the operating system ends them: success, a failure that changes nothing, or a copy that fails after writing part of its target.
- **Clock readings** (`%Y-%m-%d`, `%Y-%m-%d-%H-%M-%S`) and the application data directory are parameters.

## Model

| member | source | states |
|---|---|---|
| Storage.EncodeBool | src/lib/db.ts:95 | a flag is written as 0 or 1 and `Boolean()` reads it back as the same flag |
| Storage.DecodeBool | src/lib/db.ts:80 | `Boolean()` on a stored integer; `EncodeBool` and `DecodeEncode` state that it inverts the encoding |
| Storage.OrZero | src/lib/db.ts:131 | `x \|\| 0` on a nullable number; `CategoryTotal` and `CariPage.MissingAmountCountsAsZero` state its effect |
| Storage.DecodeEncode | src/lib/db.ts:76-80 | on the two stored values, decoding then encoding gives the stored value back |
| Storage.NullIfEmpty | src/lib/db.ts:91-93 | `s \|\| null` is NULL exactly for an absent or empty string, and the string itself otherwise |
| Storage.EmptyTablesWellFormed | src-tauri/src/db.rs:10-32 | the freshly created tables satisfy the table invariant: keyed daily rows, increasing ids below the counter, flags 0/1 |
| Storage.GetDaily | src/lib/db.ts:38-49 | the stored row for the date if there is one, None otherwise (never a zero record); a stored row carries its own date |
| Storage.SaveDaily | src/lib/db.ts:51-66 | the INSERT OR REPLACE as a function of the tables; `SaveDailyRoundTrip` and `Schema.SaveDailyMatchesSchema` state what it does |
| Storage.SaveDailyRoundTrip | src/lib/db.ts:51-66 | after saving, reading the date gives exactly the record; other dates and tables are unchanged; saving twice equals saving once |
| Storage.SaveDailyKeepsWellFormed | src/lib/db.ts:51-66 | the upsert keeps the table invariant |
| Storage.Select | src/lib/db.ts:72-75 | the query never returns more rows than are stored |
| Storage.SelectMembers | src/lib/db.ts:72-75 | a row is selected exactly when it is stored with that period and category |
| Storage.SelectAppend | src/lib/db.ts:72-75 | selection distributes over concatenation of the stored rows |
| Storage.DecodeRowsAppend | src/lib/db.ts:77-80 | decoding rows distributes over concatenation |
| Storage.FromRow | src/lib/db.ts:76-80 | a stored row as the page receives it; `ToRowRoundTrip` states that it undoes `ToRow` |
| Storage.ListExpenses | src/lib/db.ts:70-81 | the result of `getExpenses`; `ListExpensesExact` states which rows it holds |
| Storage.ListExpensesExact | src/lib/db.ts:70-81 | every listed expense has that period and category and comes from a stored row; every matching stored row is listed with its flag decoded |
| Storage.ToRow | src/lib/db.ts:85-97 | the row `addExpense` binds; `ToRowRoundTrip` and `Schema.AddExpenseMatchesSchema` state its content |
| Storage.Insert | src/lib/db.ts:83-98 | the insertion as a function of the tables; `InsertAddsOneRow`, `InsertList` and `InsertTotal` state what it does |
| Storage.ToRowRoundTrip | src/lib/db.ts:83-98 | reading back an inserted expense gives it with its new id and its empty optional strings as null |
| Storage.InsertAddsOneRow | src/lib/db.ts:83-98 | insertion keeps every existing row, appends one row with an id larger than every id in use, and keeps the invariant |
| Storage.InsertList | src/lib/db.ts:83-98 | the new expense's own list grows by exactly that expense; every other list is unchanged |
| Storage.InsertOwnList | src/lib/db.ts:83-98 | the rows selected for the new expense's period and category are the old ones followed by the new row |
| Storage.InsertOtherList | src/lib/db.ts:83-98 | for any other period or category the selected rows and the list are unchanged |
| Storage.UpdatePaid | src/lib/db.ts:100-103 | the UPDATE on the rows; `SetPaidOnlyFlag` states which rows change |
| Storage.SetPaid | src/lib/db.ts:100-103 | `updateExpensePaidStatus` as a function of the tables; `SetPaidOnlyFlag`, `SetPaidFlag` and `ToggleTwice` state what it does |
| Storage.SetPaidOnlyFlag | src/lib/db.ts:100-103 | only `is_paid` of the rows with that id changes; an unknown id changes nothing; other tables are unchanged |
| Storage.SetPaidFlag | src/lib/db.ts:100-103 | afterwards every row with that id holds the written flag |
| Storage.SetPaidKeepsWellFormed | src/lib/db.ts:100-103 | the UPDATE keeps the invariant |
| Storage.ToggleTwice | src/lib/db.ts:100-103 | writing the negated flag and then the original flag gives the tables back |
| Storage.RemoveId | src/lib/db.ts:105-108 | a row survives deletion exactly when its id differs |
| Storage.RemoveIdAbsent | src/lib/db.ts:105-108 | deleting an id no row has changes nothing |
| Storage.RemoveIdAppend | src/lib/db.ts:105-108 | deletion distributes over concatenation |
| Storage.RemoveIdKeepsIncreasing | src/lib/db.ts:105-108 | deletion keeps ids increasing |
| Storage.Delete | src/lib/db.ts:105-108 | `deleteExpense` as a function of the tables; `DeleteOnlyThatRow` and `InsertThenDelete` state what it does |
| Storage.DeleteOnlyThatRow | src/lib/db.ts:105-108 | only rows with that id go; an unknown id is a no-op; the counter and the other tables are unchanged; the invariant holds |
| Storage.StatusOf | src/lib/db.ts:110-114 | false for a period never set, otherwise the stored flag decoded |
| Storage.SetStatus | src/lib/db.ts:116-122 | the INSERT OR REPLACE of the flag; `SetStatusRoundTrip` and `Schema.SetStatusMatchesSchema` state what it does |
| Storage.SetStatusRoundTrip | src/lib/db.ts:116-122 | after setting, the period reads back the flag; other periods and tables are unchanged |
| Storage.SetStatusKeepsWellFormed | src/lib/db.ts:116-122 | the upsert keeps the invariant |
| Storage.Apply | src/lib/db.ts:51-122 | one write (`saveDailyRecord`, `addExpense`, `updateExpensePaidStatus`, `deleteExpense` or `setPeriodStatus`) applied to the tables; `Run` applies a sequence of them |
| Storage.ApplyKeepsCounter | src-tauri/src/db.rs:19 | every write keeps the invariant and never lowers the AUTOINCREMENT counter |
| Storage.RunKeepsCounter | src-tauri/src/db.rs:19 | over any history of writes the invariant holds and the counter never goes down |
| Storage.IdsNeverReused | src-tauri/src/db.rs:19 | once an id has been handed out, after any later history of writes (deleting its row included) the next insert's id differs from it and from every stored id |
| Storage.SumAppend | src/lib/db.ts:127-130 | the sum of amounts distributes over concatenation |
| Storage.SqlSum | src/lib/db.ts:127-130 | SQL SUM is NULL exactly over no rows |
| Storage.CategoryTotal | src/lib/db.ts:125-132 | the total is the sum of the matching amounts, and 0 when nothing matches |
| Storage.InsertTotal | src/lib/db.ts:83-98 | an insert raises its own category total by its amount and leaves every other total alone |
| Storage.InsertThenDelete | src/lib/db.ts:105-108 | adding an expense and deleting it by its new id restores the tables except the counter, and so restores every category total |
| Storage.Database.GetDailyRecord | src/lib/db.ts:38-49 | returns `GetDaily` of the current tables |
| Storage.Database.SaveDailyRecord | src/lib/db.ts:51-66 | the new state is `SaveDaily` of the old one; the invariant holds |
| Storage.Database.GetExpenses | src/lib/db.ts:70-81 | returns `ListExpenses` of the current tables |
| Storage.Database.AddExpense | src/lib/db.ts:83-98 | the new state is `Insert` of the old one; the invariant holds |
| Storage.Database.UpdateExpensePaidStatus | src/lib/db.ts:100-103 | the new state is `SetPaid` of the old one; the invariant holds |
| Storage.Database.DeleteExpense | src/lib/db.ts:105-108 | the new state is `Delete` of the old one; the invariant holds |
| Storage.Database.GetPeriodStatus | src/lib/db.ts:110-114 | returns `StatusOf` of the current tables |
| Storage.Database.SetPeriodStatus | src/lib/db.ts:116-122 | the new state is `SetStatus` of the old one; the invariant holds |
| Storage.Database.GetCategoryTotal | src/lib/db.ts:125-132 | returns `CategoryTotal` of the current tables |
| Schema.GetMigrations | src-tauri/src/db.rs:3-36 | the single migration, version 1, creating the three tables; `SchemaKeys` and the default lemmas state its content |
| Schema.Resolve | src-tauri/src/db.rs:11-31 | the value a column receives: the supplied one, else its default, and the next id for a NULL AUTOINCREMENT key; `ExpenseColumnRules` states its effect |
| Schema.BuildRow | src-tauri/src/db.rs:9-33 | an unknown column is an error; otherwise the row is built exactly when no NOT NULL column is left NULL, and holds the supplied-or-default value of every column |
| Schema.Insert | src-tauri/src/db.rs:9-33 | a row that cannot be built gives its error; a plain INSERT fails with a UNIQUE error exactly when a stored row has the new row's non-NULL key; otherwise the result is exactly the stored rows minus the clashing ones, plus the new row |
| Schema.InsertKeepsKeysUnique | src-tauri/src/db.rs:11-30 | every INSERT that succeeds, plain or OR REPLACE, keeps at most one row per primary key, and the new row is the only one with its key |
| Schema.StoredKeysUnique | src-tauri/src/db.rs:11-30 | the tables of a well-formed storage state satisfy all three primary keys |
| Schema.BuildRowIs | src-tauri/src/db.rs:9-33 | an INSERT that leaves no NOT NULL column NULL builds exactly the resolved row |
| Schema.SchemaKeys | src-tauri/src/db.rs:11-30 | the primary keys are `date`, `id` and `period` (the key `Insert` checks), and only `id` is AUTOINCREMENT |
| Schema.DailyAmountsDefaultToZero | src-tauri/src/db.rs:10-16 | a daily row given only its date gets 0 in the four till amounts |
| Schema.ExpenseColumnRules | src-tauri/src/db.rs:18-27 | an expense INSERT fails exactly when period, category or title is missing or NULL; the id defaults to the next id, amount and is_paid to 0, sub_category and number to NULL |
| Schema.PeriodStatusDefaultsToZero | src-tauri/src/db.rs:29-32 | a period row given only its period reads as not fully paid |
| Schema.DailyRowBuilt | src/lib/db.ts:55-65 | the upsert's INSERT builds exactly the record's five values |
| Schema.SaveDailyMatchesSchema | src/lib/db.ts:55-65 | the INSERT OR REPLACE on the stored table gives exactly the table of `Storage.SaveDaily`: one row per date, the row of that date replaced |
| Schema.SetStatusMatchesSchema | src/lib/db.ts:116-122 | the INSERT OR REPLACE on the stored table gives exactly the table of `Storage.SetStatus` |
| Schema.PlainInsertOfStoredPeriodFails | src-tauri/src/db.rs:30 | a plain INSERT of a period already stored fails on the key |
| Schema.ExpenseRowBuilt | src/lib/db.ts:85-97 | the row `addExpense` builds always passes the NOT NULL checks and is the row the storage model appends |
| Schema.AddExpenseMatchesSchema | src/lib/db.ts:83-98 | on a well-formed state, the plain INSERT never clashes on the key and gives exactly the table of `Storage.Insert` |
| CariPage.WithField | src/pages/CariPage.tsx:65 | setting one amount field changes only that field |
| CariPage.ZeroRecord | src/pages/CariPage.tsx:43-49 | the default record carries the date and 0 in each amount |
| CariPage.MainTotal | src/pages/CariPage.tsx:19 | `anaKasaToplam`; `Variance`, `MissingAmountCountsAsZero` and `VarianceMovesWithAmounts` state its properties |
| CariPage.PcTotal | src/pages/CariPage.tsx:20 | `pcToplam`; the same lemmas state its properties |
| CariPage.Variance | src/pages/CariPage.tsx:19-21 | the variance is positive, or negative, exactly when the main-till total is above, or below, the computer-till total; it is their difference |
| CariPage.Classify | src/pages/CariPage.tsx:215-220 | FAZLALIK exactly for a positive variance, AÇIK exactly for a negative one, NÖTR exactly for zero |
| CariPage.Label | src/pages/CariPage.tsx:215-220 | the word shown for each verdict; `Classify` states which verdict a variance gets |
| CariPage.MissingAmountCountsAsZero | src/pages/CariPage.tsx:19-21 | a missing amount counts exactly as 0 in both totals and the variance |
| CariPage.VarianceMovesWithAmounts | src/pages/CariPage.tsx:19-21 | raising a main-till amount raises the variance by the same amount; raising a computer-till amount lowers it |
| CariPage.ZeroRecordIsNeutral | src/pages/CariPage.tsx:10-21 | the all-zero record has variance 0 and is NÖTR |
| CariPage.AfterLoad | src/pages/CariPage.tsx:35-56 | the loaded record is the stored row when there is one, else the zero record for the date |
| CariPage.LoadedRecordHasDate | src/pages/CariPage.tsx:38-50 | whatever is stored, the loaded record carries the requested date |
| CariPage.InputChange | src/pages/CariPage.tsx:58-66 | an empty input sets the field to 0; an unparsable one changes nothing; otherwise the field takes the parsed value; no other field and not the date change |
| CariPage.ResetView | src/pages/CariPage.tsx:83-86 | the date is cleared and the record has an empty date and zero amounts |
| CariPage.SelectDate | src/pages/CariPage.tsx:24-33 | the selected date is set and its record loaded, carrying that date, so the record shown is the selected date's |
| CariPage.EditingKeepsSelectedDate | src/pages/CariPage.tsx:58-66 | editing a field keeps the record shown the selected date's; the start and the reset select no date |
| CariPage.HandleSave | src/pages/CariPage.tsx:68-81 | no write without a selected date; otherwise the record is saved whole |
| CariPage.SaveThenReload | src/pages/CariPage.tsx:68-72 | saving the selected date's record and loading that date again shows exactly the saved record |
| PeriodText.NatToString | src/pages/GiderPage.tsx:48 | `String(n)` gives at least one digit, with a leading 0 only for 0 |
| PeriodText.ParseNatToString | src/pages/GiderPage.tsx:48 | the decimal digits of a number read back as that number |
| PeriodText.NatToStringInjective | src/pages/GiderPage.tsx:48 | different numbers are written differently |
| PeriodText.FourDigitYear | src/pages/GiderPage.tsx:48 | the years 1000 to 9999 are written with four digits |
| PeriodText.PadStart2 | src/pages/GiderPage.tsx:48 | `padStart(2, '0')` leaves a string of two or more characters alone, and left-pads a shorter one with zeros to length 2 |
| PeriodText.MonthCodeDigits | src/pages/GiderPage.tsx:48 | month index m is written as the two digits of m + 1 |
| PeriodText.MonthCodesListed | src/pages/GiderPage.tsx:48 | the months 0 to 11 are written "01" to "12" |
| PeriodText.MonthCodeInjective | src/pages/GiderPage.tsx:48 | different months have different codes |
| PeriodText.PeriodOf | src/pages/GiderPage.tsx:48 | the key is the year, a dash, and two more characters |
| PeriodText.PeriodInjective | src/pages/GiderPage.tsx:48 | for non-negative years, different year/month pairs have different keys |
| PeriodText.MonthsOfYearDistinct | src/pages/GiderPage.tsx:69 | the twelve months of a year have twelve different keys |
| PeriodText.PeriodShape | src/pages/GiderPage.tsx:48 | a four-digit year gives `YYYY-MM`: seven characters, a dash at index 4, the year and the month code reading back |
| GiderPage.PeriodStr | src/pages/GiderPage.tsx:48 | "" exactly when no month is selected, otherwise the key of the shown year and selected month |
| GiderPage.PrevYear | src/pages/GiderPage.tsx:161 | the previous year is never below 2026: one less above 2026, and 2026 otherwise |
| GiderPage.NextYear | src/pages/GiderPage.tsx:163 | the next year is one more, with no upper bound |
| GiderPage.Browse | src/pages/GiderPage.tsx:161-163 | the year after a sequence of button presses; `BrowseStaysInRange` states its bounds |
| GiderPage.BrowseStaysInRange | src/pages/GiderPage.tsx:161-163 | over any sequence of button presses from 2026 or later, the year stays at or above 2026 and rises by at most one per press |
| GiderPage.MonthSelect | src/pages/GiderPage.tsx:99-102 | choosing a month shows the category grid, with that month's key as the period |
| GiderPage.CategorySelect | src/pages/GiderPage.tsx:104-111 | the market category opens the summary and every other category the list; the category is selected; the period is kept |
| GiderPage.BackToPeriods | src/pages/GiderPage.tsx:193 | the back arrow returns to the year view and keeps the period |
| GiderPage.BackToCategories | src/pages/GiderPage.tsx:234 | the back arrow returns to the category grid and keeps the period |
| GiderPage.WithoutMarket | src/pages/GiderPage.tsx:228 | a category is kept exactly when it is not the market category |
| GiderPage.WithoutMarketLast | src/pages/GiderPage.tsx:228 | filtering a list that ends in the market category drops just that last entry |
| GiderPage.OtherCategoriesAreFirstFive | src/pages/GiderPage.tsx:17-24 | the side panel lists the first five categories, in order |
| GiderPage.LoadExpenses | src/pages/GiderPage.tsx:52-63 | without a category or a period nothing changes; otherwise the list becomes the stored list of that period and category |
| GiderPage.PeriodsBelowSize | src/pages/GiderPage.tsx:69-73 | the first n months of a year have n distinct keys |
| GiderPage.PeriodsBelowStep | src/pages/GiderPage.tsx:69-73 | each loop step adds one new key |
| GiderPage.Mount | src/pages/GiderPage.tsx:66-77 | on mount the page is in its initial state with the twelve month flags of 2026 loaded, in agreement with the database |
| GiderPage.LoadStatuses | src/pages/GiderPage.tsx:66-77 | the map has exactly the twelve keys of the year, and each holds `getPeriodStatus` of its period |
| GiderPage.LoadCategoryTotals | src/pages/GiderPage.tsx:86-92 | one entry per category, in grid order, each the category total of the period |
| GiderPage.RefreshView | src/pages/GiderPage.tsx:80-97 | the list is reloaded in the list and summary views; the summary's totals are reloaded when a period is chosen, and sum to the total of the period's expenses in the six categories; the month flag is read from the database; nothing else changes |
| GiderPage.ChangeYear | src/pages/GiderPage.tsx:66-77 | a year button changes the year and reloads its twelve month flags, which then agree with the database |
| GiderPage.ViewTotal | src/pages/GiderPage.tsx:222 | `currentViewTotal`; `ViewTotalOfRows` and `ViewTotalIsCategoryTotal` state what it adds up to |
| GiderPage.GrossTotal | src/pages/GiderPage.tsx:224 | `grossTotal`; `GrossTotalOf` and `MarketGrossTotal` state what it adds up to |
| GiderPage.ViewTotalOfRows | src/pages/GiderPage.tsx:222 | the listed amounts of decoded rows sum to the rows' sum |
| GiderPage.ViewTotalIsCategoryTotal | src/pages/GiderPage.tsx:222 | the list's total equals the SQL total of its period and category |
| GiderPage.RowsInCons | src/pages/GiderPage.tsx:224 | a period's total over one more category is that category's total plus the rest |
| GiderPage.GrossTotalOf | src/pages/GiderPage.tsx:224 | totals built category by category sum to the total of the period's rows in those categories |
| GiderPage.RowsInNone | src/pages/GiderPage.tsx:224 | the total over no category is 0 |
| GiderPage.CategoryIdsDistinct | src/pages/GiderPage.tsx:17-24 | the six category ids are distinct |
| GiderPage.MarketGrossTotal | src/pages/GiderPage.tsx:224 | the summary's gross total is the sum of every expense of the period in one of the six categories |
| GiderPage.TogglePeriod | src/pages/GiderPage.tsx:125-133 | without a period nothing changes; otherwise only the month flag and the period's entry of the status map are negated |
| GiderPage.TogglePeriodKeepsInSync | src/pages/GiderPage.tsx:125-133 | when the page's flags agree with the database before a toggle, they agree after it, and the stored flag is negated |
| GiderPage.TogglePeriodTwice | src/pages/GiderPage.tsx:125-133 | toggling twice gives back the page state and the stored flag |
| GiderPage.RefreshedIsInSync | src/pages/GiderPage.tsx:66-97 | flags just read from the database agree with it |
| GiderPage.TogglePeriodTables | src/pages/GiderPage.tsx:125-129 | the database side of the month toggle; `TogglePeriodKeepsInSync` and `TogglePeriodTwice` state what it does |
| GiderPage.HandleTogglePeriodPaid | src/pages/GiderPage.tsx:125-133 | the page becomes `TogglePeriod` and the database stores the negated flag for the period |
| GiderPage.HandleTogglePaid | src/pages/GiderPage.tsx:120-123 | stores the negation of the current flag, then reloads the list |
| GiderPage.TogglePaidShown | src/pages/GiderPage.tsx:120-123 | after the toggle, the reloaded list shows the expense with the negated flag |
| GiderPage.BuildExpense | src/pages/GiderPage.tsx:138-146 | the new expense has the current period and category and no id, and passes number and sub-category through |
| GiderPage.EmptyFormDefaults | src/pages/GiderPage.tsx:138-146 | an untouched form gives an unpaid expense with an empty title and amount 0 |
| GiderPage.SubmitTables | src/pages/GiderPage.tsx:135-149 | the database side of a submit; `SubmitAppendsExpense` states its effect on the list |
| GiderPage.SubmitState | src/pages/GiderPage.tsx:150-152 | the page side of a submit; `HandleModalSubmit` states it |
| GiderPage.HandleModalSubmit | src/pages/GiderPage.tsx:135-153 | nothing without a period and category; otherwise one insert, the form closed and cleared, and the list reloaded |
| GiderPage.SubmitAppendsExpense | src/pages/GiderPage.tsx:135-153 | after a submit the list is the old list followed by the new expense as read back: its id, its title or "", its amount or 0, its flag or unpaid, and empty optional strings as null |
| GiderPage.HandleDelete | src/pages/GiderPage.tsx:113-118 | an unconfirmed delete changes nothing; a confirmed one deletes the id and reloads the list |
| GiderPage.DeleteTables | src/pages/GiderPage.tsx:113-118 | the database side of a delete; `DeletedNotListed` states its effect on the list |
| GiderPage.DeletedNotListed | src/pages/GiderPage.tsx:113-118 | after a confirmed delete, the list no longer holds that id and keeps every other expense |
| Backup.BackupPathsSeparate | src-tauri/src/backup.rs:17-24 | no backup path is the live database, its journals or `.old`, and daily and manual backups never share a path |
| Backup.LivePathsDistinct | src-tauri/src/backup.rs:39-45 | the database, `.old`, WAL and SHM paths are four different files |
| Backup.ManualBackupPathsDistinct | src-tauri/src/backup.rs:80-82 | manual backups at different times have different paths |
| Backup.FileSystem.Exists | src-tauri/src/backup.rs:13 | true exactly for a path that holds a file |
| Backup.CopyFiles | src-tauri/src/backup.rs:28 | `fs::copy` on the file map; `CopyFacts` states what it does |
| Backup.CopyResult | src-tauri/src/backup.rs:28 | what `fs::copy` returns; `CopyFacts` states when it succeeds |
| Backup.CopyFacts | src-tauri/src/backup.rs:28 | a copy succeeds exactly when its source exists and the system lets it finish, and the target then holds the source; a missing source gives the not-found error; no other path changes; a failed copy leaves the target as it was or holding a prefix of the source |
| Backup.RenameFiles | src-tauri/src/backup.rs:46 | `fs::rename` on the file map: unless the source is missing or the system refuses, the content moves to the target |
| Backup.RemoveFiles | src-tauri/src/backup.rs:50-51 | `fs::remove_file` on the file map: unless the system refuses, the file is gone |
| Backup.OpResult | src-tauri/src/backup.rs:46-51 | what a rename or removal returns: not found for a missing source, the system's error when it refuses, Ok otherwise |
| Backup.FileSystem.Copy | src-tauri/src/backup.rs:28 | performs exactly `CopyFiles` and returns `CopyResult` |
| Backup.FileSystem.Rename | src-tauri/src/backup.rs:46 | performs exactly `RenameFiles` and returns `OpResult` |
| Backup.FileSystem.RemoveFile | src-tauri/src/backup.rs:50-51 | performs exactly `RemoveFiles` and returns `OpResult` |
| Backup.InitFiles | src-tauri/src/backup.rs:8-33 | the files after `init`; `InitOutcome`, `InitIdempotent` and `InitKeepsDatabase` state what it does |
| Backup.InitResult | src-tauri/src/backup.rs:8-33 | what `init` returns; `InitOutcome` states when it succeeds |
| Backup.InitOutcome | src-tauri/src/backup.rs:8-33 | no live database means no change and Ok; an existing backup for today is never touched; `init` succeeds exactly when there is no live database, or the folder is there and either today's backup already exists or the copy completes, and today's backup then exists and, if new, is the live database; a failed copy leaves at most a prefix of it; nothing else changes |
| Backup.InitIdempotent | src-tauri/src/backup.rs:22-30 | after a start that succeeded, a second start on the same day changes nothing, however its own steps go |
| Backup.InitKeepsTruncatedBackup | src-tauri/src/backup.rs:27-28 | a copy that fails part-way leaves a truncated backup for today, and later starts that day keep it |
| Backup.InitKeepsDatabase | src-tauri/src/backup.rs:8-33 | the live database is not altered |
| Backup.Init | src-tauri/src/backup.rs:8-33 | performs exactly `InitFiles` and returns `InitResult`, passing on the errors of the folder creation and the copy |
| Backup.SetAside | src-tauri/src/backup.rs:43-51 | the files after the rename and the two removals; `RestoreSetsAside` states what it does |
| Backup.RestoreFiles | src-tauri/src/backup.rs:37-63 | the files after a restore; the restore lemmas state what it does |
| Backup.RestoreResult | src-tauri/src/backup.rs:54-62 | what a restore returns; `RestoreSucceeds` and `RestoreFailureLeavesNoDatabase` state when it succeeds and what a failure says |
| Backup.RestoreSetsAside | src-tauri/src/backup.rs:40-51 | a journal is left exactly when it was there and its removal failed; a live database whose rename succeeded is kept as `.old`; otherwise `.old` is as it was; every other file is untouched |
| Backup.RestoreSucceeds | src-tauri/src/backup.rs:54-59 | for a chosen file other than the live files and `.old`, the restore succeeds exactly when the file exists and the copy completes, and the live database then holds its content |
| Backup.RestoreFailureLeavesNoDatabase | src-tauri/src/backup.rs:44-61 | a failure returns the copy's error, prefixed; when the rename succeeded (or there was no database) and the copy wrote nothing, no live database remains, and a renamed one survives as `.old` |
| Backup.RestoreFailureLeavesTruncatedDatabase | src-tauri/src/backup.rs:54 | a copy that fails part-way leaves a live database that is a prefix of the chosen file |
| Backup.RestoreOverwritesWhenRenameFails | src-tauri/src/backup.rs:46-59 | when the rename fails and the copy succeeds, the restore reports success, the live database is overwritten, and no `.old` copy exists |
| Backup.RestoreFromLiveDatabaseFails | src-tauri/src/backup.rs:43-54 | choosing the live database itself fails with the not-found error whenever its rename succeeds |
| Backup.RestoreBackup | src-tauri/src/backup.rs:37-63 | performs exactly `RestoreFiles`, returns `RestoreResult`, and restarts exactly on success |
| Backup.ManualFiles | src-tauri/src/backup.rs:67-87 | the files after `create_manual_backup`; `ManualBackupOutcome` states what it does |
| Backup.ManualResult | src-tauri/src/backup.rs:67-87 | what `create_manual_backup` returns; `ManualBackupOutcome` states when it succeeds |
| Backup.ManualBackupOutcome | src-tauri/src/backup.rs:67-87 | without a live database it returns the error and creates nothing; it succeeds exactly when the database exists and the folder and the copy succeed, and the new backup is then the live database and the message ends in its file name; a failed folder creation returns its error and changes nothing; a failed copy returns the "Kopyalama hatası" error; no other file changes |
| Backup.ManualBackupsAccumulate | src-tauri/src/backup.rs:80-84 | two successful manual backups at different times both survive as copies of the live database |
| Backup.CreateManualBackup | src-tauri/src/backup.rs:67-87 | performs exactly `ManualFiles` and returns `ManualResult` |

## Left out

- Floating point: amounts are exact `real`s, so no rounding, `toFixed` or `toLocaleString` is modelled.
- `parseFloat` and `Number` are not modelled. Their result is a parameter: a number, or None for NaN.
- The date string of the reconciliation page is a parameter. It comes from the timezone-offset arithmetic and `toISOString` at src/pages/CariPage.tsx:26-29.
- The `chrono` timestamps are parameters already formatted.
- The application data directory is a parameter, so the error `app_data_dir` can return is not modelled.
- SQLite and the SQL plugin are not modelled: the engine, `Database.load` and the lazily created `dbInstance` singleton. The tables are kept as maps and sequences.
- An expense list is returned in insertion (id) order. A SELECT without ORDER BY gives no order guarantee.
- Asynchronous execution and the order React runs effects in are not modelled: each handler is one atomic step.
- Each effect is a method that the page state is passed through. The `loading` flag, `console.error` and `alert` are left out.
- A failing database call is not modelled: the pages' `catch` branches only log.
- The form field editing and the open/cancel buttons of the modal are markup, and are not modelled. The form enters the model as values already typed.
- The `required` attribute on the title and amount inputs (src/pages/GiderPage.tsx:324, 329, 438, 450) is a browser check that is not modelled. A form with no title or no amount is not submitted in the running page.
- GiderPage.EmptyFormDefaults: the `''` title and 0 amount defaults are what `handleModalSubmit` computes for an empty form. Because of the `required` inputs, the page reaches them only past that browser check.
- The JSX rendering of both pages is not modelled.
- Directories are not part of the file map. Whether creating the `backups` or `manualbackups` folder fails is an outcome parameter (`Succeeds` when the folder is already there), and a copy into a missing folder is not modelled.
- How each file operation ends when its source exists is an outcome parameter: it succeeds, fails and changes nothing, or (for a copy) fails after writing part of its target. The platform's wording of a missing-file error is a parameter of the `FileSystem`.
- Backup.RestoreBackup: copying a file onto itself (choosing the live database when its rename failed) is modelled as leaving it unchanged. Some platforms truncate the file instead.
- `app.restart()` is an output flag of `RestoreBackup`.
- The `println!` of `init` is left out.
- The confirmation dialog before a restore (src/components/BackupModal.tsx:32) is outside `restore_backup`, and is not modelled. The dialog before a delete is the `confirmed` parameter of `GiderPage.HandleDelete`.
- The dialog's `.db` extension filter is not modelled.
- GiderPage.HandleTogglePaid: the current flag is taken from the caller, as in the code. Only when it agrees with the stored flag is the result the negation of what is stored; `Storage.ToggleTwice` and `GiderPage.TogglePaidShown` state the consequences.

## Behaviour that follows the code

A few behaviours of the code differ from what a reader might expect of such a tool. The model follows the code:

- **An unknown id** in `updateExpensePaidStatus` or `deleteExpense` is a silent no-op: the SQL UPDATE or DELETE matches no row. It is not a NotFound error.
- **The title** that `handleModalSubmit` passes to `addExpense` is `title || ''`, so the NOT NULL constraint on `title` never rejects it. Only the `required` input keeps an empty title out.
- **A failed restore** does not leave the live database in place. The code renames it to `market.db.old` before the copy, so after a failed copy there is no `market.db`, or a truncated one if the copy failed part-way. The old content survives only as `.old`.
- **A failed rename** during a restore is ignored. If the copy then succeeds, the live database is overwritten in place and no `.old` copy of it is made (`Backup.RestoreOverwritesWhenRenameFails`).
- **A journal file** whose removal fails stays next to the restored database.
- **A daily backup** whose copy failed part-way stays truncated for the rest of the day, since `init` only copies when no backup for today exists (`Backup.InitKeepsTruncatedBackup`).
- **The market summary's gross total** sums the six category totals. It is not the total of every expense of the month: an expense stored under any other category string is not counted.
