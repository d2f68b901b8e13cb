/**
 * The backend's keyed store: one table per entity, rows keyed by an integer primary key.
 * Creation appends a row under a fresh id, update overwrites every payload field of the row
 * with that id, deletion removes it; the selections read a table without changing it.
 * The daily pass over recurring investments is a loop that updates rows in place.
 */
module Crud {
  import opened Wrappers
  import opened Dates
  import opened Records
  import opened Domain

  /** The largest id in use, 0 for an empty table. */
  function MaxId<P>(rows: seq<Row<P>>): (m: int)
    ensures m >= 0
    ensures forall i :: 0 <= i < |rows| ==> rows[i].id <= m
  {
    if rows == [] then 0
    else
      var m := MaxId(rows[..|rows| - 1]);
      if rows[|rows| - 1].id > m then rows[|rows| - 1].id else m
  }

  /** The id SQLite gives a new row of a table declared without AUTOINCREMENT. */
  function NextId<P>(rows: seq<Row<P>>): (id: int)
    ensures id >= 1
    ensures !HasId(rows, RowId, id)
  {
    MaxId(rows) + 1
  }

  /** A table of rows with distinct primary keys. */
  class Table<P(!new)> {
    var rows: seq<Row<P>>

    ghost predicate Valid()
      reads this
    {
      UniqueIds(rows, RowId)
    }

    constructor ()
      ensures Valid() && rows == []
    {
      rows := [];
    }

    /** `create_*`: the new row carries the payload under an id no other row has; the others stay as they were. */
    method Create(p: P) returns (row: Row<P>)
      requires Valid()
      modifies this
      ensures Valid()
      ensures row.data == p && !HasId(old(rows), RowId, row.id)
      ensures rows == old(rows) + [row]
    {
      row := Row(NextId(rows), p);
      rows := rows + [row];
    }

    /** `update_*`: every payload field of the row with the id is overwritten; an unknown id yields `None` and changes nothing. */
    method Update(id: int, p: P) returns (r: Option<Row<P>>)
      requires Valid()
      modifies this
      ensures Valid()
      ensures r.Some? <==> HasId(old(rows), RowId, id)
      ensures r.Some? ==> r.value == Row(id, p)
                          && rows == ReplaceById(old(rows), RowId, id, r.value)
                          && FindById(rows, RowId, id) == r
      ensures r.None? ==> rows == old(rows)
    {
      var found := FindById(rows, RowId, id);
      if found.Some? {
        ReplaceKeepsUniqueIds(rows, RowId, id, Row(id, p));
        rows := ReplaceById(rows, RowId, id, Row(id, p));
        r := Some(Row(id, p));
      } else {
        r := None;
      }
    }

    /** `delete_*`: true and the row gone iff the id was present; otherwise false and nothing changes. */
    method Delete(id: int) returns (deleted: bool)
      requires Valid()
      modifies this
      ensures Valid()
      ensures deleted <==> HasId(old(rows), RowId, id)
      ensures rows == RemoveById(old(rows), RowId, id)
      ensures !HasId(rows, RowId, id)
      ensures deleted ==> |rows| == |old(rows)| - 1
      ensures !deleted ==> rows == old(rows)
    {
      var found := FindById(rows, RowId, id);
      RemoveKeepsUniqueIds(rows, RowId, id);
      if found.Some? {
        CountIdUnique(rows, RowId, id);
        deleted := true;
      } else {
        RemoveAbsentId(rows, RowId, id);
        deleted := false;
      }
      rows := RemoveById(rows, RowId, id);
    }
  }

  /** `create_savings_investment`: `last_recurring_date` is today exactly for a recurring investment. */
  method CreateSavingsInvestment(t: Table<InvestmentData>, p: InvestmentPayload, today: CalendarDate)
    returns (row: Investment)
    requires t.Valid()
    modifies t
    ensures t.Valid()
    ensures t.rows == old(t.rows) + [row] && !HasId(old(t.rows), RowId, row.id)
    ensures row.data == WithPayload(p, if p.isRecurring then Some(today) else None)
  {
    var last := if p.isRecurring then Some(today) else None;
    row := t.Create(WithPayload(p, last));
  }

  /**
   * `update_savings_investment`: the payload fields are overwritten; `last_recurring_date`, which is
   * not a payload field, keeps its stored value.
   */
  method UpdateSavingsInvestment(t: Table<InvestmentData>, id: int, p: InvestmentPayload)
    returns (r: Option<Investment>)
    requires t.Valid()
    modifies t
    ensures t.Valid()
    ensures r.Some? <==> HasId(old(t.rows), RowId, id)
    ensures r.Some? ==>
      var before := FindById(old(t.rows), RowId, id).value;
      r.value == Row(id, WithPayload(p, before.data.lastRecurringDate))
      && t.rows == ReplaceById(old(t.rows), RowId, id, r.value)
    ensures r.None? ==> t.rows == old(t.rows)
  {
    var found := FindById(t.rows, RowId, id);
    if found.Some? {
      r := t.Update(id, WithPayload(p, found.value.data.lastRecurringDate));
    } else {
      r := None;
    }
  }

  // ----- Selections -----

  /** `offset(skip).limit(limit)`: at most `limit` rows, starting at position `skip`. */
  function GetAllTransactions(rows: seq<Transaction>, skip: int, limit: int): (r: seq<Transaction>)
    requires skip >= 0 && limit >= 0
    ensures |r| <= limit
    ensures skip >= |rows| ==> r == []
    ensures forall i :: 0 <= i < |r| ==> skip + i < |rows| && r[i] == rows[skip + i]
    ensures skip + limit <= |rows| ==> |r| == limit
    ensures skip + limit > |rows| ==> |r| == (if skip < |rows| then |rows| - skip else 0)
  {
    if skip >= |rows| then []
    else if skip + limit <= |rows| then rows[skip..skip + limit]
    else rows[skip..]
  }

  /** The first day of the month after (year, month): `date(year + 1, 1, 1)` for December. */
  function FirstOfNextMonth(year: int, month: int): (d: CalendarDate)
    requires 1 <= month <= 12
    ensures MonthIndex(d.year, d.month) == MonthIndex(year, month) + 1 && d.day == 1
  {
    if month == 12 then Date(year + 1, 1, 1) else Date(year, month + 1, 1)
  }

  predicate InWindow(t: Transaction, start: Date, end: Date) {
    AtOrBefore(start, t.data.date) && Before(t.data.date, end)
  }

  predicate InRange(t: Transaction, start: Date, end: Date) {
    AtOrBefore(start, t.data.date) && AtOrBefore(t.data.date, end)
  }

  /**
   * `get_transactions_by_month`: the transactions dated in [first of month, first of next month).
   * `None` is the `ValueError` of `date(year, month, 1)` for a month outside 1..12.
   */
  function TransactionsByMonth(rows: seq<Transaction>, year: int, month: int): (r: Option<seq<Transaction>>)
    ensures r.Some? <==> 1 <= month <= 12
    ensures r.Some? ==> forall t :: t in r.value <==> t in rows && t.data.date.year == year && t.data.date.month == month
  {
    if 1 <= month <= 12 then
      var start := Date(year, month, 1);
      var end := FirstOfNextMonth(year, month);
      var r := Filter(rows, t => InWindow(t, start, end));
      forall t: Transaction ensures InWindow(t, start, end) <==> t.data.date.year == year && t.data.date.month == month {
        MonthWindow(t.data.date, year, month);
      }
      Some(r)
    else None
  }

  /** A calendar date lies in the half-open window of a month exactly when it carries that year and month. */
  lemma MonthWindow(d: CalendarDate, year: int, month: int)
    requires 1 <= month <= 12
    ensures AtOrBefore(Date(year, month, 1), d) && Before(d, FirstOfNextMonth(year, month))
        <==> d.year == year && d.month == month
  {
    var end := FirstOfNextMonth(year, month);
    if month == 12 {
      assert end == Date(year + 1, 1, 1);
    } else {
      assert end == Date(year, month + 1, 1);
    }
  }

  /** `get_transactions_by_date_range`: the transactions with `start <= date <= end`, both ends included. */
  function TransactionsByDateRange(rows: seq<Transaction>, start: CalendarDate, end: CalendarDate): (r: seq<Transaction>)
    ensures forall t :: t in r <==> t in rows && AtOrBefore(start, t.data.date) && AtOrBefore(t.data.date, end)
  {
    Filter(rows, t => InRange(t, start, end))
  }

  // ----- The daily recurring-investment pass -----

  /** Due: one calendar month (monthly) or one year (yearly) after `last` has been reached; never for any other type. */
  predicate IsDue(recurringType: Option<string>, last: CalendarDate, today: CalendarDate) {
    if recurringType == Some(Monthly) then AtOrBefore(AddMonths(last, 1), today)
    else if recurringType == Some(Yearly) then AtOrBefore(AddYears(last, 1), today)
    else false
  }

  /** `if investment.recurring_amount:` — null and zero are both falsy. */
  predicate HasAmount(a: Option<real>) {
    a.Some? && a.value != 0.0
  }

  /** What one iteration of `process_recurring_investments` does to an investment, and whether it counts it. */
  function CrudStep(inv: InvestmentData, today: CalendarDate): (InvestmentData, bool) {
    if !inv.isRecurring then (inv, false)
    else if inv.lastRecurringDate.None? then (inv.(lastRecurringDate := Some(today)), false)
    else if IsDue(inv.recurringType, inv.lastRecurringDate.value, today) && HasAmount(inv.recurringAmount) then
      (inv.(currentValue := inv.currentValue + inv.recurringAmount.value, lastRecurringDate := Some(today)), true)
    else (inv, false)
  }

  /** The table after the pass: every row replaced by its step, in place. */
  function CrudPass(rows: seq<Investment>, today: CalendarDate): (r: seq<Investment>)
    ensures |r| == |rows|
    ensures forall i :: 0 <= i < |rows| ==> r[i].id == rows[i].id
  {
    seq(|rows|, i requires 0 <= i < |rows| => Row(rows[i].id, CrudStep(rows[i].data, today).0))
  }

  /** The count the pass returns. */
  function CrudCount(rows: seq<Investment>, today: CalendarDate): nat {
    if rows == [] then 0
    else CrudCount(rows[..|rows| - 1], today) + (if CrudStep(rows[|rows| - 1].data, today).1 then 1 else 0)
  }

  /**
   * `process_recurring_investments`: the rows are stepped one by one in the session and the counted
   * steps tallied. The session is committed only when the count is positive; otherwise `get_db`
   * closes it and every first-sighting stamp is rolled back, so the stored table stays as it was.
   */
  method ProcessRecurringInvestments(t: Table<InvestmentData>, today: CalendarDate) returns (count: nat)
    requires t.Valid()
    modifies t
    ensures t.Valid()
    ensures t.rows == if count > 0 then CrudPass(old(t.rows), today) else old(t.rows)
    ensures count == CrudCount(old(t.rows), today)
  {
    var session := t.rows;
    var i := 0;
    count := 0;
    while i < |session|
      invariant 0 <= i <= |session| == |t.rows|
      invariant forall k :: 0 <= k < |session| ==> session[k].id == t.rows[k].id
      invariant forall k :: 0 <= k < i ==> session[k] == CrudPass(t.rows, today)[k]
      invariant forall k :: i <= k < |session| ==> session[k] == t.rows[k]
      invariant count == CrudCount(t.rows[..i], today)
    {
      var inv := session[i].data;
      if inv.isRecurring {
        if inv.lastRecurringDate.None? {
          inv := inv.(lastRecurringDate := Some(today));
        } else if IsDue(inv.recurringType, inv.lastRecurringDate.value, today) && HasAmount(inv.recurringAmount) {
          inv := inv.(currentValue := inv.currentValue + inv.recurringAmount.value, lastRecurringDate := Some(today));
          count := count + 1;
        }
      }
      session := session[i := Row(session[i].id, inv)];
      assert t.rows[..i + 1][..i] == t.rows[..i];
      i := i + 1;
    }
    assert t.rows[..i] == t.rows;
    if count > 0 {
      assert forall j, k :: 0 <= j < k < |session| ==> session[j].id == t.rows[j].id && session[k].id == t.rows[k].id;
      t.rows := session;
    }
  }

  /** The pass only touches recurring rows, and never changes an id or a payload field other than the value. */
  lemma CrudPassFrame(rows: seq<Investment>, today: CalendarDate)
    ensures forall i :: 0 <= i < |rows| && !rows[i].data.isRecurring ==> CrudPass(rows, today)[i] == rows[i]
    ensures forall i :: 0 <= i < |rows| ==>
      var a := rows[i].data; var b := CrudPass(rows, today)[i].data;
      b.name == a.name && b.purchaseDate == a.purchaseDate && b.initialAmount == a.initialAmount
      && b.isRecurring == a.isRecurring && b.recurringType == a.recurringType && b.recurringAmount == a.recurringAmount
  {
  }

  /**
   * In the session, a first sighting only stamps today's date: no value is added and it is not
   * counted. The stamp is stored only when another row of the same call is counted.
   */
  lemma CrudFirstSighting(rows: seq<Investment>, today: CalendarDate, i: int)
    requires 0 <= i < |rows| && rows[i].data.isRecurring && rows[i].data.lastRecurringDate.None?
    ensures CrudPass(rows, today)[i].data == rows[i].data.(lastRecurringDate := Some(today))
    ensures !CrudStep(rows[i].data, today).1
  {
  }

  /** How many rows differ in `current_value` between two versions of a table. */
  function ValueChanges(before: seq<Investment>, after: seq<Investment>): nat
    requires |before| == |after|
  {
    if before == [] then 0
    else
      var n := |before| - 1;
      ValueChanges(before[..n], after[..n]) + (if after[n].data.currentValue != before[n].data.currentValue then 1 else 0)
  }

  /** The count is the number of rows whose value the pass changed (raised by their recurring amount). */
  lemma {:induction false} CrudCountIsChanged(rows: seq<Investment>, today: CalendarDate)
    ensures CrudCount(rows, today) == ValueChanges(rows, CrudPass(rows, today))
  {
    if rows != [] {
      var n := |rows| - 1;
      CrudCountIsChanged(rows[..n], today);
      assert CrudPass(rows, today)[..n] == CrudPass(rows[..n], today);
    }
  }

  /** Running the pass twice on the same day changes nothing the second time and counts nothing. */
  lemma {:induction false} CrudPassIdempotent(rows: seq<Investment>, today: CalendarDate)
    ensures CrudPass(CrudPass(rows, today), today) == CrudPass(rows, today)
    ensures CrudCount(CrudPass(rows, today), today) == 0
  {
    var once := CrudPass(rows, today);
    forall i | 0 <= i < |rows| ensures CrudStep(once[i].data, today) == (once[i].data, false) {
      StepTwice(rows[i].data, today);
    }
    NoCountWhenFixed(once, today);
  }

  lemma StepTwice(inv: InvestmentData, today: CalendarDate)
    ensures var a := CrudStep(inv, today).0; CrudStep(a, today) == (a, false)
  {
    var a := CrudStep(inv, today).0;
    if a.isRecurring && a.lastRecurringDate.Some? && a.lastRecurringDate.value == today {
      if a.recurringType == Some(Monthly) {
        AddOneMonthIsLater(today);
      } else if a.recurringType == Some(Yearly) {
        AddOneYearIsLater(today);
      }
    }
  }

  lemma {:induction false} NoCountWhenFixed(rows: seq<Investment>, today: CalendarDate)
    requires forall i :: 0 <= i < |rows| ==> !CrudStep(rows[i].data, today).1
    ensures CrudCount(rows, today) == 0
  {
    if rows != [] {
      NoCountWhenFixed(rows[..|rows| - 1], today);
    }
  }

  /**
   * A recurring row without a date, with no other recurring row in the table, is never stamped in
   * the stored table: the pass stamps it in the session but counts nothing, so nothing is committed.
   * This holds for every day, so each later daily call finds the row dateless again.
   */
  lemma {:induction false} LoneDatelessRowStaysNull(rows: seq<Investment>, today: CalendarDate, i: int)
    requires 0 <= i < |rows| && rows[i].data.isRecurring && rows[i].data.lastRecurringDate.None?
    requires forall k :: 0 <= k < |rows| && k != i ==> !rows[k].data.isRecurring
    ensures CrudPass(rows, today)[i].data.lastRecurringDate == Some(today)
    ensures CrudCount(rows, today) == 0
  {
    NoCountWhenFixed(rows, today);
  }
}
