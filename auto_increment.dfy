/**
 * The startup passes: each active salary is posted as an income transaction at most once per
 * calendar month, and each recurring investment gains its recurring amount once per period.
 * Both are loops that update rows in place and count what they did.
 */
module AutoIncrement {
  import opened Wrappers
  import opened Dates
  import opened Records
  import opened Domain
  import opened Crud

  // ----- Salaries -----

  /** Not yet posted this month: never posted, or last posted in another (month, year). */
  predicate SalaryDue(s: SalaryData, today: CalendarDate) {
    s.lastAddedDate.None? || s.lastAddedDate.value.month != today.month || s.lastAddedDate.value.year != today.year
  }

  predicate Posts(s: SalaryData, today: CalendarDate) {
    s.isActive && SalaryDue(s, today)
  }

  /** The income transaction a posting adds. */
  function SalaryTransaction(s: SalaryData, today: CalendarDate): (t: TransactionData)
    ensures t.date == today && t.amount == s.amount && t.kind == Income
    ensures t.category == "Salary" && t.paymentMethod == "bank" && t.creditCardId.None?
  {
    TransactionData(today, s.amount, Income, "Salary", Some("Monthly salary: " + s.name), "bank", None)
  }

  function SalaryPass(rows: seq<Salary>, today: CalendarDate): (r: seq<Salary>)
    ensures |r| == |rows|
    ensures forall i :: 0 <= i < |rows| ==> r[i].id == rows[i].id
  {
    seq(|rows|, i requires 0 <= i < |rows| =>
      if Posts(rows[i].data, today) then Row(rows[i].id, rows[i].data.(lastAddedDate := Some(today))) else rows[i])
  }

  /** The salaries posted by the pass, in table order. */
  function Posted(rows: seq<Salary>, today: CalendarDate): seq<SalaryData> {
    if rows == [] then []
    else Posted(rows[..|rows| - 1], today) + (if Posts(rows[|rows| - 1].data, today) then [rows[|rows| - 1].data] else [])
  }

  /** Active salaries already posted this month. */
  function SkippedSalaries(rows: seq<Salary>, today: CalendarDate): nat {
    if rows == [] then 0
    else
      var s := rows[|rows| - 1].data;
      SkippedSalaries(rows[..|rows| - 1], today) + (if s.isActive && !SalaryDue(s, today) then 1 else 0)
  }

  function ActiveSalaries(rows: seq<Salary>): nat {
    if rows == [] then 0 else ActiveSalaries(rows[..|rows| - 1]) + (if rows[|rows| - 1].data.isActive then 1 else 0)
  }

  /**
   * `process_auto_salary_entries`: each posting salary gets today's date and one income transaction
   * appended under a fresh id; the counts are the postings and the active salaries already posted.
   */
  method ProcessAutoSalaryEntries(salaries: Table<SalaryData>, transactions: Table<TransactionData>, today: CalendarDate)
    returns (processed: nat, skipped: nat)
    requires salaries.Valid() && transactions.Valid()
    modifies salaries, transactions
    ensures salaries.Valid() && transactions.Valid()
    ensures salaries.rows == SalaryPass(old(salaries.rows), today)
    ensures processed == |Posted(old(salaries.rows), today)|
    ensures skipped == SkippedSalaries(old(salaries.rows), today)
    ensures |transactions.rows| == |old(transactions.rows)| + processed
    ensures transactions.rows[..|old(transactions.rows)|] == old(transactions.rows)
    ensures forall k :: 0 <= k < processed ==>
      transactions.rows[|old(transactions.rows)| + k].data == SalaryTransaction(Posted(old(salaries.rows), today)[k], today)
  {
    var before := salaries.rows;
    var t0 := transactions.rows;
    var i := 0;
    processed, skipped := 0, 0;
    while i < |before|
      invariant 0 <= i <= |before|
      invariant transactions.Valid() && UniqueIds(before, RowId)
      invariant PassedUpTo(before, salaries.rows, i, today)
      invariant processed == |Posted(before[..i], today)|
      invariant skipped == SkippedSalaries(before[..i], today)
      invariant PostingsAppended(t0, transactions.rows, Posted(before[..i], today), today)
    {
      PostedStep(before, i, today);
      PassStep(before, salaries.rows, i, today);
      var s := salaries.rows[i];
      if s.data.isActive {
        if SalaryDue(s.data, today) {
          ghost var t1 := transactions.rows;
          var row := transactions.Create(SalaryTransaction(s.data, today));
          PostingAppended(t0, t1, Posted(before[..i], today), s.data, row, today);
          salaries.rows := salaries.rows[i := Row(s.id, s.data.(lastAddedDate := Some(today)))];
          processed := processed + 1;
        } else {
          skipped := skipped + 1;
        }
      }
      i := i + 1;
    }
    assert before[..i] == before;
    PassDone(before, salaries.rows, today);
  }

  /** The loop's picture of the salary table: rows before `i` are as the pass leaves them, the others as they were. */
  ghost predicate PassedUpTo(before: seq<Salary>, rows: seq<Salary>, i: int, today: CalendarDate) {
    |rows| == |before| && 0 <= i <= |before|
    && (forall k :: 0 <= k < i ==> rows[k] == SalaryPass(before, today)[k])
    && (forall k :: i <= k < |before| ==> rows[k] == before[k])
  }

  /** Posting or skipping row `i` moves the picture one row on. */
  lemma PassStep(before: seq<Salary>, rows: seq<Salary>, i: int, today: CalendarDate)
    requires PassedUpTo(before, rows, i, today) && i < |before|
    ensures rows[i] == before[i]
    ensures Posts(before[i].data, today) ==>
      PassedUpTo(before, rows[i := Row(before[i].id, before[i].data.(lastAddedDate := Some(today)))], i + 1, today)
    ensures !Posts(before[i].data, today) ==> PassedUpTo(before, rows, i + 1, today)
  {
  }

  /** Once every row is passed, the table is the pass's result, and its ids are still unique. */
  lemma PassDone(before: seq<Salary>, rows: seq<Salary>, today: CalendarDate)
    requires PassedUpTo(before, rows, |before|, today) && UniqueIds(before, RowId)
    ensures rows == SalaryPass(before, today) && UniqueIds(rows, RowId)
  {
  }

  /** The transaction table is the one before the pass followed by one income transaction per posted salary. */
  ghost predicate PostingsAppended(t0: seq<Transaction>, rows: seq<Transaction>, posted: seq<SalaryData>, today: CalendarDate) {
    |rows| == |t0| + |posted| && rows[..|t0|] == t0
    && forall k :: 0 <= k < |posted| ==> rows[|t0| + k].data == SalaryTransaction(posted[k], today)
  }

  /** Appending one more salary's transaction extends the postings by that salary. */
  lemma PostingAppended(t0: seq<Transaction>, rows: seq<Transaction>, posted: seq<SalaryData>, s: SalaryData,
                        row: Transaction, today: CalendarDate)
    requires PostingsAppended(t0, rows, posted, today) && row.data == SalaryTransaction(s, today)
    ensures PostingsAppended(t0, rows + [row], posted + [s], today)
  {
    assert (rows + [row])[..|t0|] == rows[..|t0|];
  }

  // ----- The salary query against the declared schema -----

  /** The model classes the backend's schema declares; there is no `Salary` among them. */
  const DeclaredModels: set<string> := {"Transaction", "CreditCard", "SavingsInvestment"}

  /** What `process_auto_salary_entries` reports: its two counts, or its `except` branch's zero count. */
  datatype SalaryStatus = SalaryCounts(processed: nat, skipped: nat) | SalaryFailed {
    function ProcessedCount(): nat {
      if SalaryCounts? then processed else 0
    }
  }

  /**
   * The salary pass as the code stands: `db.query(models.Salary)` raises unless the schema declares
   * a `Salary` class, and the `except` branch then reports no posting; otherwise the pass's counts.
   */
  function SalaryStatusAsWritten(declared: set<string>, rows: seq<Salary>, today: CalendarDate): (r: SalaryStatus)
    ensures r.SalaryFailed? <==> "Salary" !in declared
    ensures r.SalaryFailed? ==> r.ProcessedCount() == 0
    ensures r.SalaryCounts? ==> r.processed + r.skipped == ActiveSalaries(rows)
  {
    SalaryCountsCover(rows, today);
    if "Salary" in declared then SalaryCounts(|Posted(rows, today)|, SkippedSalaries(rows, today)) else SalaryFailed
  }

  /** Against the declared schema, an active salary never posted before is still reported as not posted. */
  lemma DueSalaryNotPosted(today: CalendarDate)
    ensures var rows := [Row(1, SalaryData("Job", 3000.0, true, None))];
      |Posted(rows, today)| == 1 && SalaryStatusAsWritten(DeclaredModels, rows, today).ProcessedCount() == 0
  {
    var rows := [Row(1, SalaryData("Job", 3000.0, true, None))];
    assert rows[..0] == [];
  }

  /**
   * `run_startup_checks` as written: the salary status it adds in always reports 0, so
   * `all_processed` is the investments' count alone, and falls short of the postings due whenever
   * a salary is due.
   */
  lemma StartupTotalAsWritten(rows: seq<Salary>, invs: seq<Investment>, today: CalendarDate)
    ensures var total := SalaryStatusAsWritten(DeclaredModels, rows, today).ProcessedCount() + AutoCount(invs, today, Processed);
      total == AutoCount(invs, today, Processed)
      && (Posted(rows, today) != [] ==> total < |Posted(rows, today)| + AutoCount(invs, today, Processed))
  {
    assert "Salary" !in DeclaredModels;
  }

  /** One more row of the table extends the postings and the skipped count by that row's own. */
  lemma PostedStep(rows: seq<Salary>, i: int, today: CalendarDate)
    requires 0 <= i < |rows|
    ensures Posted(rows[..i + 1], today) == Posted(rows[..i], today) + (if Posts(rows[i].data, today) then [rows[i].data] else [])
    ensures SkippedSalaries(rows[..i + 1], today) == SkippedSalaries(rows[..i], today) + (if rows[i].data.isActive && !SalaryDue(rows[i].data, today) then 1 else 0)
  {
    assert rows[..i + 1][..i] == rows[..i];
  }

  /** Every active salary is either posted or skipped, exactly once. */
  lemma {:induction false} SalaryCountsCover(rows: seq<Salary>, today: CalendarDate)
    ensures |Posted(rows, today)| + SkippedSalaries(rows, today) == ActiveSalaries(rows)
  {
    if rows != [] {
      SalaryCountsCover(rows[..|rows| - 1], today);
    }
  }

  /**
   * Only active salaries not yet posted this month change, and only in their date; afterwards every
   * active salary counts as posted this month.
   */
  lemma SalaryPassRows(rows: seq<Salary>, today: CalendarDate, i: int)
    requires 0 <= i < |rows|
    ensures Posts(rows[i].data, today) ==> SalaryPass(rows, today)[i].data.lastAddedDate == Some(today)
    ensures rows[i].data.isActive ==> !SalaryDue(SalaryPass(rows, today)[i].data, today)
    ensures !Posts(rows[i].data, today) ==> SalaryPass(rows, today)[i] == rows[i]
    ensures SalaryPass(rows, today)[i].data.(lastAddedDate := rows[i].data.lastAddedDate) == rows[i].data
  {
  }

  /** Running the salary pass again on the same day posts nothing and changes nothing. */
  lemma SalaryPassIdempotent(rows: seq<Salary>, today: CalendarDate)
    ensures Posted(SalaryPass(rows, today), today) == []
    ensures SalaryPass(SalaryPass(rows, today), today) == SalaryPass(rows, today)
  {
    NothingPosts(SalaryPass(rows, today), today);
  }

  lemma {:induction false} NothingPosts(rows: seq<Salary>, today: CalendarDate)
    requires forall i :: 0 <= i < |rows| ==> !Posts(rows[i].data, today)
    ensures Posted(rows, today) == []
  {
    if rows != [] {
      NothingPosts(rows[..|rows| - 1], today);
    }
  }

  // ----- Recurring investments -----

  datatype Outcome = NotRead | Processed | Skipped

  /** What one iteration of `process_auto_recurring_investments` does to an investment. */
  function AutoStep(inv: InvestmentData, today: CalendarDate): (InvestmentData, Outcome) {
    if !inv.isRecurring then (inv, NotRead)
    else if inv.lastRecurringDate.None? then
      (inv.(lastRecurringDate := Some(today), currentValue := inv.currentValue + AmountOrZero(inv.recurringAmount)), Processed)
    else if IsDue(inv.recurringType, inv.lastRecurringDate.value, today) && HasAmount(inv.recurringAmount) then
      (inv.(currentValue := inv.currentValue + inv.recurringAmount.value, lastRecurringDate := Some(today)), Processed)
    else (inv, Skipped)
  }

  function AutoPass(rows: seq<Investment>, today: CalendarDate): (r: seq<Investment>)
    ensures |r| == |rows|
    ensures forall i :: 0 <= i < |rows| ==> r[i].id == rows[i].id
  {
    seq(|rows|, i requires 0 <= i < |rows| => Row(rows[i].id, AutoStep(rows[i].data, today).0))
  }

  /** How many rows of the table had the given outcome. */
  function AutoCount(rows: seq<Investment>, today: CalendarDate, o: Outcome): nat {
    if rows == [] then 0
    else AutoCount(rows[..|rows| - 1], today, o) + (if AutoStep(rows[|rows| - 1].data, today).1 == o then 1 else 0)
  }

  function RecurringCount(rows: seq<Investment>): nat {
    if rows == [] then 0 else RecurringCount(rows[..|rows| - 1]) + (if rows[|rows| - 1].data.isRecurring then 1 else 0)
  }

  /** `process_auto_recurring_investments`: every row stepped in place, processed and skipped rows counted. */
  method ProcessAutoRecurringInvestments(t: Table<InvestmentData>, today: CalendarDate)
    returns (processed: nat, skipped: nat)
    requires t.Valid()
    modifies t
    ensures t.Valid()
    ensures t.rows == AutoPass(old(t.rows), today)
    ensures processed == AutoCount(old(t.rows), today, Processed)
    ensures skipped == AutoCount(old(t.rows), today, Skipped)
  {
    var before := t.rows;
    var i := 0;
    processed, skipped := 0, 0;
    while i < |before|
      invariant 0 <= i <= |before| && UniqueIds(before, RowId)
      invariant AutoPassedUpTo(before, t.rows, i, today)
      invariant processed == AutoCount(before[..i], today, Processed)
      invariant skipped == AutoCount(before[..i], today, Skipped)
    {
      AutoCountStep(before, i, today);
      AutoPassStep(before, t.rows, i, today);
      var inv, outcome := StepRecurring(t.rows[i].data, today);
      if outcome == Processed {
        processed := processed + 1;
      } else if outcome == Skipped {
        skipped := skipped + 1;
      }
      t.rows := t.rows[i := Row(before[i].id, inv)];
      i := i + 1;
    }
    assert before[..i] == before;
    AutoPassDone(before, t.rows, today);
  }

  /** The loop body for one investment: its new state, and whether it was processed, skipped or not read. */
  method StepRecurring(inv: InvestmentData, today: CalendarDate) returns (next: InvestmentData, outcome: Outcome)
    ensures (next, outcome) == AutoStep(inv, today)
  {
    next, outcome := inv, NotRead;
    if inv.isRecurring {
      if inv.lastRecurringDate.None? {
        next := inv.(lastRecurringDate := Some(today), currentValue := inv.currentValue + AmountOrZero(inv.recurringAmount));
        outcome := Processed;
      } else if IsDue(inv.recurringType, inv.lastRecurringDate.value, today) && HasAmount(inv.recurringAmount) {
        next := inv.(currentValue := inv.currentValue + inv.recurringAmount.value, lastRecurringDate := Some(today));
        outcome := Processed;
      } else {
        outcome := Skipped;
      }
    }
  }

  /** The loop's picture of the investment table: rows before `i` are stepped, the others as they were. */
  ghost predicate AutoPassedUpTo(before: seq<Investment>, rows: seq<Investment>, i: int, today: CalendarDate) {
    |rows| == |before| && 0 <= i <= |before|
    && (forall k :: 0 <= k < i ==> rows[k] == AutoPass(before, today)[k])
    && (forall k :: i <= k < |before| ==> rows[k] == before[k])
  }

  /** Stepping row `i` in place moves the picture one row on. */
  lemma AutoPassStep(before: seq<Investment>, rows: seq<Investment>, i: int, today: CalendarDate)
    requires AutoPassedUpTo(before, rows, i, today) && i < |before|
    ensures rows[i] == before[i]
    ensures AutoPassedUpTo(before, rows[i := Row(before[i].id, AutoStep(before[i].data, today).0)], i + 1, today)
  {
  }

  /** Once every row is stepped, the table is the pass's result, and its ids are still unique. */
  lemma AutoPassDone(before: seq<Investment>, rows: seq<Investment>, today: CalendarDate)
    requires AutoPassedUpTo(before, rows, |before|, today) && UniqueIds(before, RowId)
    ensures rows == AutoPass(before, today) && UniqueIds(rows, RowId)
  {
  }

  /** One more row of the table adds that row's own outcome to the counts. */
  lemma AutoCountStep(rows: seq<Investment>, i: int, today: CalendarDate)
    requires 0 <= i < |rows|
    ensures AutoCount(rows[..i + 1], today, Processed) == AutoCount(rows[..i], today, Processed) + (if AutoStep(rows[i].data, today).1 == Processed then 1 else 0)
    ensures AutoCount(rows[..i + 1], today, Skipped) == AutoCount(rows[..i], today, Skipped) + (if AutoStep(rows[i].data, today).1 == Skipped then 1 else 0)
  {
    assert rows[..i + 1][..i] == rows[..i];
  }

  /** Every recurring investment is processed or skipped, exactly once; non-recurring ones are never read. */
  lemma {:induction false} AutoCountsCover(rows: seq<Investment>, today: CalendarDate)
    ensures AutoCount(rows, today, Processed) + AutoCount(rows, today, Skipped) == RecurringCount(rows)
    ensures AutoCount(rows, today, NotRead) == |rows| - RecurringCount(rows)
  {
    if rows != [] {
      AutoCountsCover(rows[..|rows| - 1], today);
    }
  }

  /** A processed row rises by its recurring amount (0 if null) and is dated today; any other row is unchanged. */
  lemma AutoStepEffect(inv: InvestmentData, today: CalendarDate)
    ensures var (a, o) := AutoStep(inv, today);
      (o == Processed ==> a == inv.(currentValue := inv.currentValue + AmountOrZero(inv.recurringAmount), lastRecurringDate := Some(today)))
      && (o != Processed ==> a == inv)
      && (o == NotRead <==> !inv.isRecurring)
  {
  }

  /** Once a date is recorded, both passes treat an investment the same way. */
  lemma AutoAgreesWithCrudOnDatedRows(inv: InvestmentData, today: CalendarDate)
    requires inv.lastRecurringDate.Some?
    ensures AutoStep(inv, today).0 == CrudStep(inv, today).0
    ensures AutoStep(inv, today).1 == Processed <==> CrudStep(inv, today).1
  {
  }

  /**
   * On a first sighting the two passes disagree: the startup pass credits the recurring amount,
   * the daily pass only stamps the date.
   */
  lemma FirstSightingDiffers(inv: InvestmentData, today: CalendarDate)
    requires inv.isRecurring && inv.lastRecurringDate.None? && HasAmount(inv.recurringAmount)
    ensures AutoStep(inv, today).0.currentValue == inv.currentValue + inv.recurringAmount.value
    ensures CrudStep(inv, today).0.currentValue == inv.currentValue
    ensures AutoStep(inv, today).0 != CrudStep(inv, today).0
  {
  }

  /** Running the investment pass again on the same day processes nothing and changes nothing. */
  lemma AutoPassIdempotent(rows: seq<Investment>, today: CalendarDate)
    ensures AutoPass(AutoPass(rows, today), today) == AutoPass(rows, today)
    ensures AutoCount(AutoPass(rows, today), today, Processed) == 0
  {
    var once := AutoPass(rows, today);
    forall i | 0 <= i < |rows| ensures AutoStep(once[i].data, today).0 == once[i].data && AutoStep(once[i].data, today).1 != Processed {
      AutoStepTwice(rows[i].data, today);
    }
    NoneProcessed(once, today);
  }

  lemma AutoStepTwice(inv: InvestmentData, today: CalendarDate)
    ensures var a := AutoStep(inv, today).0; AutoStep(a, today).0 == a && AutoStep(a, today).1 != Processed
  {
    var a := AutoStep(inv, today).0;
    if a.isRecurring && a.lastRecurringDate.Some? && a.lastRecurringDate.value == today {
      if a.recurringType == Some(Monthly) {
        AddOneMonthIsLater(today);
      } else if a.recurringType == Some(Yearly) {
        AddOneYearIsLater(today);
      }
    }
  }

  lemma {:induction false} NoneProcessed(rows: seq<Investment>, today: CalendarDate)
    requires forall i :: 0 <= i < |rows| ==> AutoStep(rows[i].data, today).1 != Processed
    ensures AutoCount(rows, today, Processed) == 0
  {
    if rows != [] {
      NoneProcessed(rows[..|rows| - 1], today);
    }
  }

  // ----- Startup -----

  /** `run_startup_checks`: both passes in order; `all_processed` adds their processed counts. */
  method RunStartupChecks(salaries: Table<SalaryData>, transactions: Table<TransactionData>,
                          investments: Table<InvestmentData>, today: CalendarDate)
    returns (salariesProcessed: nat, investmentsProcessed: nat, allProcessed: nat)
    requires salaries.Valid() && transactions.Valid() && investments.Valid()
    modifies salaries, transactions, investments
    ensures salaries.Valid() && transactions.Valid() && investments.Valid()
    ensures salaries.rows == SalaryPass(old(salaries.rows), today)
    ensures investments.rows == AutoPass(old(investments.rows), today)
    ensures salariesProcessed == |Posted(old(salaries.rows), today)|
    ensures investmentsProcessed == AutoCount(old(investments.rows), today, Processed)
    ensures allProcessed == salariesProcessed + investmentsProcessed
  {
    var salariesSkipped, investmentsSkipped;
    salariesProcessed, salariesSkipped := ProcessAutoSalaryEntries(salaries, transactions, today);
    investmentsProcessed, investmentsSkipped := ProcessAutoRecurringInvestments(investments, today);
    allProcessed := salariesProcessed + investmentsProcessed;
  }
}
