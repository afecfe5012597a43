/**
 * The daily series behind the dashboard's line chart: the transactions are
 * grouped by their date into one entry per day holding that day's income,
 * expense and balance, and the entries are then sorted by date.
 */
module DailySeries {
  import opened Types
  import opened Lists
  import opened DateKeys
  import opened Dashboard

  /** One point of the daily chart. */
  datatype Day = Day(date: Date, income: int, expense: int, balance: int)

  /** The test `t.date === d`. */
  function IsOn(d: Date): Transaction -> bool
  {
    (t: Transaction) => t.date == d
  }

  /** The records of `ts` dated `d`, in order. */
  function OnDate(ts: seq<Transaction>, d: Date): seq<Transaction>
  {
    Filter(ts, IsOn(d))
  }

  /** The distinct dates that occur in `ts`. */
  function Dates(ts: seq<Transaction>): set<Date>
  {
    set t | t in ts :: t.date
  }

  /** The amounts of kind `k` dated `d`, summed in order. */
  function DayTotal(ts: seq<Transaction>, d: Date, k: Kind): int
  {
    if ts == [] then 0
    else
      var t := ts[|ts| - 1];
      DayTotal(ts[..|ts| - 1], d, k) + (if t.date == d && t.kind == k then t.amount else 0)
  }

  /** The entry that date `d` should have: its income and expense totals and their difference. */
  function Summary(ts: seq<Transaction>, d: Date): Day
  {
    Day(d, DayTotal(ts, d, Income), DayTotal(ts, d, Expense), DayTotal(ts, d, Income) - DayTotal(ts, d, Expense))
  }

  /** Entries in strictly increasing date order. */
  predicate Ascending(days: seq<Day>)
  {
    forall i, j :: 0 <= i < j < |days| ==> Before(days[i].date, days[j].date)
  }

  /** No date has two entries. */
  predicate DistinctDates(days: seq<Day>)
  {
    forall i, j :: 0 <= i < j < |days| ==> days[i].date != days[j].date
  }

  /** Every entry of `days` is the summary of a date of `ts`, and every date of `ts` has an entry. */
  ghost predicate Covers(ts: seq<Transaction>, days: seq<Day>)
  {
    && (forall i :: 0 <= i < |days| ==> days[i] == Summary(ts, days[i].date) && days[i].date in Dates(ts))
    && (forall d :: d in Dates(ts) ==> exists i :: 0 <= i < |days| && days[i].date == d)
  }

  /** What the chart receives: one summary per date of `ts`, in ascending date order. */
  ghost predicate IsDailySeries(ts: seq<Transaction>, days: seq<Day>)
  {
    Covers(ts, days) && Ascending(days)
  }

  lemma DatesSnoc(ts: seq<Transaction>, t: Transaction)
    ensures Dates(ts + [t]) == Dates(ts) + {t.date}
  {
    assert forall u :: u in ts + [t] <==> u in ts || u == t;
  }

  /** A date with no records has an all-zero entry. */
  lemma {:induction false} SummaryAbsent(ts: seq<Transaction>, d: Date)
    requires d !in Dates(ts)
    ensures Summary(ts, d) == Day(d, 0, 0, 0)
    decreases |ts|
  {
    if ts != [] {
      var p := ts[..|ts| - 1];
      assert ts == p + [ts[|ts| - 1]];
      DatesSnoc(p, ts[|ts| - 1]);
      SummaryAbsent(p, d);
    }
  }

  lemma OnDateSnoc(ts: seq<Transaction>, t: Transaction, d: Date)
    ensures OnDate(ts + [t], d) == OnDate(ts, d) + (if t.date == d then [t] else [])
  {
    FilterSnoc(ts, t, IsOn(d));
  }

  lemma DayTotalSnoc(ts: seq<Transaction>, t: Transaction, d: Date, k: Kind)
    ensures DayTotal(ts + [t], d, k) == DayTotal(ts, d, k) + (if t.date == d && t.kind == k then t.amount else 0)
  {
    assert (ts + [t])[..|ts|] == ts;
  }

  /** Appending a record leaves the entries of the other dates as they were. */
  lemma SummarySnocOther(ts: seq<Transaction>, t: Transaction, d: Date)
    requires d != t.date
    ensures Summary(ts + [t], d) == Summary(ts, d)
  {
    DayTotalSnoc(ts, t, d, Income);
    DayTotalSnoc(ts, t, d, Expense);
  }

  /** Appending a record adds its amount to the income or the expense of its own date. */
  lemma SummarySnocSame(ts: seq<Transaction>, t: Transaction)
    ensures Summary(ts + [t], t.date).income == Summary(ts, t.date).income + (if t.kind == Income then t.amount else 0)
    ensures Summary(ts + [t], t.date).expense == Summary(ts, t.date).expense + (if t.kind == Expense then t.amount else 0)
  {
    DayTotalSnoc(ts, t, t.date, Income);
    DayTotalSnoc(ts, t, t.date, Expense);
  }

  /**
   * The per-day totals are the dashboard totals of that day's records: the
   * income of an entry is the sum of the income amounts with its date, and
   * its expense the sum of the expense amounts with its date.
   */
  lemma {:induction false} SummaryIsTotalsOfDay(ts: seq<Transaction>, d: Date)
    ensures Summary(ts, d).income == TotalIncome(OnDate(ts, d))
    ensures Summary(ts, d).expense == TotalExpenses(OnDate(ts, d))
    decreases |ts|
  {
    if ts != [] {
      var p := ts[..|ts| - 1];
      var t := ts[|ts| - 1];
      assert ts == p + [t];
      SummaryIsTotalsOfDay(p, d);
      OnDateSnoc(p, t, d);
      DayTotalSnoc(p, t, d, Income);
      DayTotalSnoc(p, t, d, Expense);
      if t.date == d {
        TotalsSnoc(OnDate(p, d), t);
      } else {
        assert OnDate(ts, d) == OnDate(p, d);
      }
    }
  }

  /** The balance of an entry is also the signed running balance of that date's records. */
  lemma DayBalanceIsSignedSum(ts: seq<Transaction>, d: Date)
    ensures Summary(ts, d).balance == Balance(OnDate(ts, d))
  {
    SummaryIsTotalsOfDay(ts, d);
    BalanceIsIncomeMinusExpenses(OnDate(ts, d));
  }

  /** `acc.find(d => d.date === date)`: the index of the first entry dated `date`, or -1. */
  method FindDay(acc: seq<Day>, date: Date) returns (j: int)
    ensures -1 <= j < |acc|
    ensures j == -1 <==> forall k :: 0 <= k < |acc| ==> acc[k].date != date
    ensures 0 <= j ==> acc[j].date == date && forall k :: 0 <= k < j ==> acc[k].date != date
  {
    j := 0;
    while j < |acc|
      invariant 0 <= j <= |acc|
      invariant forall k :: 0 <= k < j ==> acc[k].date != date
    {
      if acc[j].date == date {
        return;
      }
      j := j + 1;
    }
    j := -1;
  }

  /** After a record is appended, the entries of the other dates are still its summaries. */
  lemma EntriesSnoc(p: seq<Transaction>, t: Transaction, acc: seq<Day>)
    requires forall i :: 0 <= i < |acc| ==> acc[i] == Summary(p, acc[i].date) && acc[i].date in Dates(p)
    requires forall i :: 0 <= i < |acc| ==> acc[i].date != t.date
    ensures forall i :: 0 <= i < |acc| ==> acc[i] == Summary(p + [t], acc[i].date) && acc[i].date in Dates(p + [t])
  {
    DatesSnoc(p, t);
    forall i | 0 <= i < |acc|
      ensures acc[i] == Summary(p + [t], acc[i].date)
    {
      SummarySnocOther(p, t, acc[i].date);
    }
  }

  /** Replacing the entry of the new record's date keeps the accumulator complete. */
  lemma GroupReplace(p: seq<Transaction>, t: Transaction, acc: seq<Day>, j: nat, day: Day)
    requires Covers(p, acc) && DistinctDates(acc)
    requires j < |acc| && acc[j].date == t.date
    requires day == Summary(p + [t], t.date)
    ensures Covers(p + [t], acc[j := day]) && DistinctDates(acc[j := day])
    ensures Dates(p + [t]) == Dates(p)
  {
    DatesSnoc(p, t);
    var acc' := acc[j := day];
    var others := acc[..j] + acc[j + 1..];
    assert forall i :: 0 <= i < |others| ==> others[i] == acc[if i < j then i else i + 1];
    EntriesSnoc(p, t, others);
    forall i | 0 <= i < |acc'|
      ensures acc'[i] == Summary(p + [t], acc'[i].date) && acc'[i].date in Dates(p + [t])
    {
      if i < j {
        assert acc'[i] == others[i];
      } else if i > j {
        assert acc'[i] == others[i - 1];
      }
    }
    forall d | d in Dates(p + [t])
      ensures exists i :: 0 <= i < |acc'| && acc'[i].date == d
    {
      var i :| 0 <= i < |acc| && acc[i].date == d;
      assert acc'[i].date == d;
    }
  }

  /** Pushing the entry of a date not seen before keeps the accumulator complete. */
  lemma GroupPush(p: seq<Transaction>, t: Transaction, acc: seq<Day>, day: Day)
    requires Covers(p, acc) && DistinctDates(acc)
    requires forall k :: 0 <= k < |acc| ==> acc[k].date != t.date
    requires day == Summary(p + [t], t.date)
    ensures Covers(p + [t], acc + [day]) && DistinctDates(acc + [day])
    ensures t.date !in Dates(p) && Dates(p + [t]) == Dates(p) + {t.date}
  {
    DatesSnoc(p, t);
    EntriesSnoc(p, t, acc);
    var acc' := acc + [day];
    forall d | d in Dates(p + [t])
      ensures exists i :: 0 <= i < |acc'| && acc'[i].date == d
    {
      if d == t.date {
        assert acc'[|acc|].date == d;
      } else {
        var i :| 0 <= i < |acc| && acc[i].date == d;
        assert acc'[i].date == d;
      }
    }
  }

  /** The dates that have an entry in `days`. */
  function EntryDates(days: seq<Day>): set<Date>
  {
    set i | 0 <= i < |days| :: days[i].date
  }

  /** With no date twice, there are as many entry dates as entries. */
  lemma {:induction false} DistinctDatesCount(days: seq<Day>)
    requires DistinctDates(days)
    ensures |EntryDates(days)| == |days|
    decreases |days|
  {
    if days != [] {
      var p := days[..|days| - 1];
      var last := days[|days| - 1];
      assert DistinctDates(p);
      DistinctDatesCount(p);
      assert EntryDates(days) == EntryDates(p) + {last.date};
      assert last.date !in EntryDates(p);
    }
  }

  /** An accumulator that covers `ts` without repeating a date has one entry per distinct date. */
  lemma CoversCount(ts: seq<Transaction>, days: seq<Day>)
    requires Covers(ts, days) && DistinctDates(days)
    ensures |days| == |Dates(ts)|
  {
    assert EntryDates(days) == Dates(ts);
    DistinctDatesCount(days);
  }

  /**
   * The `reduce` that builds the day entries: a record whose date already
   * has an entry adds its amount to that entry's income or expense and
   * recomputes its balance; otherwise a new entry is pushed.
   */
  method GroupByDate(ts: seq<Transaction>) returns (acc: seq<Day>)
    ensures Covers(ts, acc) && DistinctDates(acc)
    ensures |acc| == |Dates(ts)|
  {
    acc := [];
    var i := 0;
    while i < |ts|
      invariant 0 <= i <= |ts|
      invariant Covers(ts[..i], acc) && DistinctDates(acc)
    {
      var t := ts[i];
      ghost var p := ts[..i];
      assert ts[..i + 1] == p + [t];
      var j := FindDay(acc, t.date);
      SummarySnocSame(p, t);
      if j >= 0 {
        var day := acc[j];
        assert day == Summary(p, t.date);
        if t.kind == Income {
          day := day.(income := day.income + t.amount);
        } else {
          day := day.(expense := day.expense + t.amount);
        }
        day := day.(balance := day.income - day.expense);
        assert day == Summary(p + [t], t.date);
        GroupReplace(p, t, acc, j, day);
        acc := acc[j := day];
      } else {
        var day := Day(t.date,
                       if t.kind == Income then t.amount else 0,
                       if t.kind == Expense then t.amount else 0,
                       if t.kind == Income then t.amount else -t.amount);
        assert t.date !in Dates(p);
        SummaryAbsent(p, t.date);
        assert day == Summary(p + [t], t.date);
        GroupPush(p, t, acc, day);
        acc := acc + [day];
      }
      i := i + 1;
    }
    assert ts[..i] == ts;
    CoversCount(ts, acc);
  }

  /** Exchanges the entries at `k - 1` and `k`. */
  method SwapDays(a: array<Day>, k: int)
    requires 0 < k < a.Length
    requires DistinctDates(a[..])
    modifies a
    ensures a[..] == old(a[..])[k - 1 := old(a[k])][k := old(a[k - 1])]
    ensures DistinctDates(a[..])
    ensures multiset(a[..]) == old(multiset(a[..]))
  {
    a[k - 1], a[k] := a[k], a[k - 1];
  }

  /**
   * One pass of the sort: moves the entry at `i` towards the front past
   * every entry with a later date, so that `a[..i + 1]` is in order.
   */
  method SinkDay(a: array<Day>, i: int)
    requires 0 <= i < a.Length
    requires Ascending(a[..i]) && DistinctDates(a[..])
    modifies a
    ensures Ascending(a[..i + 1]) && DistinctDates(a[..])
    ensures multiset(a[..]) == old(multiset(a[..]))
    ensures a[i + 1..] == old(a[i + 1..])
  {
    var j := i;
    while j > 0 && Before(a[j].date, a[j - 1].date)
      invariant 0 <= j <= i
      invariant forall p, q :: 0 <= p < q <= i && p != j && q != j ==> Before(a[p].date, a[q].date)
      invariant forall q :: j < q <= i ==> Before(a[j].date, a[q].date)
      invariant DistinctDates(a[..])
      invariant multiset(a[..]) == old(multiset(a[..]))
      invariant a[i + 1..] == old(a[i + 1..])
    {
      SwapDays(a, j);
      j := j - 1;
    }
    if j > 0 {
      assert a[..][j - 1] != a[..][j];
      BeforeTotal(a[j - 1].date, a[j].date);
      forall p | 0 <= p < j
        ensures Before(a[p].date, a[j].date)
      {
        if p < j - 1 {
          BeforeTransitive(a[p].date, a[j - 1].date, a[j].date);
        }
      }
    }
  }

  /** The in-place `sort` by date, as an insertion sort. */
  method SortByDate(a: array<Day>)
    requires DistinctDates(a[..])
    modifies a
    ensures Ascending(a[..])
    ensures multiset(a[..]) == old(multiset(a[..]))
  {
    var i := 0;
    while i < a.Length
      invariant 0 <= i <= a.Length
      invariant Ascending(a[..i])
      invariant DistinctDates(a[..])
      invariant multiset(a[..]) == old(multiset(a[..]))
    {
      SinkDay(a, i);
      i := i + 1;
    }
    assert a[..i] == a[..];
  }

  /** Reordering the accumulator does not change which entries it holds. */
  lemma CoversPermutation(ts: seq<Transaction>, acc: seq<Day>, days: seq<Day>)
    requires Covers(ts, acc) && multiset(acc) == multiset(days)
    ensures Covers(ts, days)
  {
    forall i | 0 <= i < |days|
      ensures days[i] == Summary(ts, days[i].date) && days[i].date in Dates(ts)
    {
      assert days[i] in multiset(acc);
      var k :| 0 <= k < |acc| && acc[k] == days[i];
    }
    forall d | d in Dates(ts)
      ensures exists i :: 0 <= i < |days| && days[i].date == d
    {
      var k :| 0 <= k < |acc| && acc[k].date == d;
      assert acc[k] in multiset(days);
      var i :| 0 <= i < |days| && days[i] == acc[k];
    }
  }

  /**
   * `chartData`: the transactions grouped into one entry per date, then
   * sorted by date.
   */
  method BuildDailySeries(ts: seq<Transaction>) returns (days: seq<Day>)
    ensures IsDailySeries(ts, days)
    ensures |days| == |Dates(ts)|
    ensures forall i :: 0 <= i < |days| ==> days[i].balance == days[i].income - days[i].expense
  {
    var acc := GroupByDate(ts);
    var a := new Day[|acc|](k requires 0 <= k < |acc| => acc[k]);
    assert a[..] == acc;
    SortByDate(a);
    days := a[..];
    assert |days| == |multiset(days)| == |multiset(acc)| == |acc|;
    CoversPermutation(ts, acc, days);
  }

  /**
   * What each entry of a daily series holds, stated with the dashboard's
   * own totals: the income and expense of that date's records, and as
   * balance their signed running sum.
   */
  lemma DailySeriesEntry(ts: seq<Transaction>, days: seq<Day>, i: nat)
    requires IsDailySeries(ts, days) && i < |days|
    ensures days[i].income == TotalIncome(OnDate(ts, days[i].date))
    ensures days[i].expense == TotalExpenses(OnDate(ts, days[i].date))
    ensures days[i].balance == Balance(OnDate(ts, days[i].date))
    ensures OnDate(ts, days[i].date) != []
  {
    var d := days[i].date;
    SummaryIsTotalsOfDay(ts, d);
    DayBalanceIsSignedSum(ts, d);
    var t :| t in ts && t.date == d;
    FilterMembership(ts, IsOn(d), t);
  }

  /** Dates in ascending order are pairwise different. */
  lemma AscendingDistinct(days: seq<Day>)
    requires Ascending(days)
    ensures DistinctDates(days)
  {
    forall i, j | 0 <= i < j < |days|
      ensures days[i].date != days[j].date
    {
      BeforeIrreflexive(days[i].date);
    }
  }

  /** Two ascending series with the same entries are the same series. */
  lemma {:induction false} AscendingUnique(a: seq<Day>, b: seq<Day>)
    requires Ascending(a) && Ascending(b) && |a| == |b|
    requires forall x :: x in a <==> x in b
    ensures a == b
    decreases |a|
  {
    if a != [] {
      assert a[0] in b;
      var k :| 0 <= k < |b| && b[k] == a[0];
      assert b[0] in a;
      var m :| 0 <= m < |a| && a[m] == b[0];
      if k != 0 {
        if m == 0 {
          BeforeIrreflexive(b[0].date);
        } else {
          BeforeAsymmetric(a[0].date, b[0].date);
        }
      }
      assert a[0] == b[0];
      forall x
        ensures x in a[1..] <==> x in b[1..]
      {
        if x in a[1..] {
          var i :| 1 <= i < |a| && a[i] == x;
          if x == b[0] {
            BeforeIrreflexive(a[0].date);
          }
          assert x in b;
        }
        if x in b[1..] {
          var i :| 1 <= i < |b| && b[i] == x;
          if x == a[0] {
            BeforeIrreflexive(b[0].date);
          }
          assert x in a;
        }
      }
      AscendingUnique(a[1..], b[1..]);
      assert a == [a[0]] + a[1..];
      assert b == [b[0]] + b[1..];
    }
  }

  /** The entry of each date does not depend on the order of the records. */
  lemma SummaryPermutation(ts: seq<Transaction>, us: seq<Transaction>, d: Date)
    requires multiset(ts) == multiset(us)
    ensures Summary(ts, d) == Summary(us, d)
  {
    SummaryIsTotalsOfDay(ts, d);
    SummaryIsTotalsOfDay(us, d);
    FilterPermutation(ts, us, IsOn(d));
    TotalsPermutation(OnDate(ts, d), OnDate(us, d));
  }

  /**
   * The daily series is determined by the multiset of records: any two
   * series built from reorderings of the same records are equal.
   */
  lemma DailySeriesUnique(ts: seq<Transaction>, us: seq<Transaction>, a: seq<Day>, b: seq<Day>)
    requires multiset(ts) == multiset(us)
    requires IsDailySeries(ts, a) && IsDailySeries(us, b)
    ensures a == b
  {
    assert forall t :: t in ts <==> t in us by {
      forall t ensures t in ts <==> t in us {
        assert t in ts <==> t in multiset(ts);
        assert t in us <==> t in multiset(us);
      }
    }
    assert Dates(ts) == Dates(us);
    forall x
      ensures x in a <==> x in b
    {
      if x in a {
        var i :| 0 <= i < |a| && a[i] == x;
        var k :| 0 <= k < |b| && b[k].date == x.date;
        SummaryPermutation(ts, us, x.date);
      }
      if x in b {
        var k :| 0 <= k < |b| && b[k] == x;
        var i :| 0 <= i < |a| && a[i].date == x.date;
        SummaryPermutation(ts, us, x.date);
      }
    }
    AscendingDistinct(a);
    AscendingDistinct(b);
    CoversCount(ts, a);
    CoversCount(us, b);
    AscendingUnique(a, b);
  }

  /** The records of the worked example: two on the first of January, one on the second. */
  function ExampleRecords(): seq<Transaction>
  {
    [Transaction("a", "u", "salary", 100, Income, "2024-01-01", ""),
     Transaction("b", "u", "food", 40, Expense, "2024-01-01", ""),
     Transaction("c", "u", "gift", 50, Income, "2024-01-02", "")]
  }

  /** The worked example's totals and split. */
  lemma ExampleTotals()
    ensures ComputeTotals(ExampleRecords()) == Totals(110, 150, 40)
    ensures PieData(150, 40) == [Slice("Income", 150), Slice("Expenses", 40)]
  {
    var ts := ExampleRecords();
    var t0, t1, t2 := ts[0], ts[1], ts[2];
    assert [t0] == [] + [t0];
    assert ts == [t0, t1] + [t2] && [t0, t1] == [t0] + [t1];
    TotalsSnoc([], t0);
    TotalsSnoc([t0], t1);
    TotalsSnoc([t0, t1], t2);
    assert TotalIncome(ts) == 150;
    assert TotalExpenses(ts) == 40;
    BalanceIsIncomeMinusExpenses(ts);
  }

  lemma ExampleDayTotals(d: Date, k: Kind)
    ensures var ts := ExampleRecords();
      DayTotal(ts, d, k) ==
        (if ts[0].date == d && ts[0].kind == k then ts[0].amount else 0) +
        (if ts[1].date == d && ts[1].kind == k then ts[1].amount else 0) +
        (if ts[2].date == d && ts[2].kind == k then ts[2].amount else 0)
  {
    var ts := ExampleRecords();
    var t0, t1, t2 := ts[0], ts[1], ts[2];
    assert [t0] == [] + [t0];
    assert ts == [t0, t1] + [t2] && [t0, t1] == [t0] + [t1];
    DayTotalSnoc([t0, t1], t2, d, k);
    DayTotalSnoc([t0], t1, d, k);
    DayTotalSnoc([], t0, d, k);
  }

  lemma ExampleDates()
    ensures Dates(ExampleRecords()) == {"2024-01-01", "2024-01-02"}
  {
    var ts := ExampleRecords();
    assert ts[0] in ts && ts[2] in ts;
  }

  /** The worked example's two points. */
  function ExampleDays(): seq<Day>
  {
    [Day("2024-01-01", 100, 40, 60), Day("2024-01-02", 50, 0, 50)]
  }

  lemma ExampleCovers()
    ensures Covers(ExampleRecords(), ExampleDays())
  {
    var ts, days := ExampleRecords(), ExampleDays();
    ExampleDayTotals(days[0].date, Income);
    ExampleDayTotals(days[0].date, Expense);
    ExampleDayTotals(days[1].date, Income);
    ExampleDayTotals(days[1].date, Expense);
    ExampleDates();
  }

  /** The worked example's daily series: one point per day, in date order. */
  lemma ExampleSeries()
    ensures IsDailySeries(ExampleRecords(), ExampleDays())
  {
    ExampleCovers();
    BeforeAt("2024-01-01", "2024-01-02", 9);
  }
}
