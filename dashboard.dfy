/**
 * The figures the dashboard derives from the current transaction list:
 * the three totals, the income/expense split for the pie chart, and the
 * savings percentage with the width of its progress bar.
 */
module Dashboard {
  import opened Types
  import opened Lists

  /** The sum of the amounts of `ts`, added left to right from 0 as `reduce` does. */
  function SumAmounts(ts: seq<Transaction>): int
  {
    if ts == [] then 0 else SumAmounts(ts[..|ts| - 1]) + ts[|ts| - 1].amount
  }

  /** The test `t.type === k` that selects the records of one kind. */
  function IsKind(k: Kind): Transaction -> bool
  {
    (t: Transaction) => t.kind == k
  }

  /** The records of `ts` of kind `k`, in order. */
  function OfKind(ts: seq<Transaction>, k: Kind): seq<Transaction>
  {
    Filter(ts, IsKind(k))
  }

  /**
   * The running balance: income records add their amount, all others
   * subtract it. A list of income alone has its sum as balance, a list of
   * expenses alone the negated sum.
   */
  function Balance(ts: seq<Transaction>): (r: int)
    ensures (forall t | t in ts :: t.kind == Income) ==> r == SumAmounts(ts)
    ensures (forall t | t in ts :: t.kind == Expense) ==> r == -SumAmounts(ts)
  {
    if ts == [] then 0
    else
      var acc := Balance(ts[..|ts| - 1]);
      var t := ts[|ts| - 1];
      if t.kind == Income then acc + t.amount else acc - t.amount
  }

  /**
   * Total income: the amounts of the income records. It is the sum of a list
   * of income alone, and 0 for a list of expenses alone.
   */
  function TotalIncome(ts: seq<Transaction>): (r: int)
    ensures (forall t | t in ts :: t.kind == Income) ==> r == SumAmounts(ts)
    ensures (forall t | t in ts :: t.kind == Expense) ==> r == 0
  {
    FilterKeepsAll(ts, IsKind(Income));
    FilterDropsAll(ts, IsKind(Income));
    SumAmounts(OfKind(ts, Income))
  }

  /**
   * Total expenses: the amounts of the expense records. It is the sum of a
   * list of expenses alone, and 0 for a list of income alone.
   */
  function TotalExpenses(ts: seq<Transaction>): (r: int)
    ensures (forall t | t in ts :: t.kind == Expense) ==> r == SumAmounts(ts)
    ensures (forall t | t in ts :: t.kind == Income) ==> r == 0
  {
    FilterKeepsAll(ts, IsKind(Expense));
    FilterDropsAll(ts, IsKind(Expense));
    SumAmounts(OfKind(ts, Expense))
  }

  datatype Totals = Totals(balance: int, income: int, expenses: int)

  /** The three figures of the summary cards. */
  function ComputeTotals(ts: seq<Transaction>): (r: Totals)
    ensures r.balance == r.income - r.expenses
    ensures ts == [] ==> r == Totals(0, 0, 0)
  {
    BalanceIsIncomeMinusExpenses(ts);
    Totals(Balance(ts), TotalIncome(ts), TotalExpenses(ts))
  }

  lemma SumAmountsSnoc(ts: seq<Transaction>, t: Transaction)
    ensures SumAmounts(ts + [t]) == SumAmounts(ts) + t.amount
  {
    assert (ts + [t])[..|ts|] == ts;
  }

  lemma OfKindSnoc(ts: seq<Transaction>, t: Transaction, k: Kind)
    ensures OfKind(ts + [t], k) == OfKind(ts, k) + (if t.kind == k then [t] else [])
  {
    FilterSnoc(ts, t, IsKind(k));
  }

  /** Appending one record to the list changes each total by that record alone. */
  lemma TotalsSnoc(ts: seq<Transaction>, t: Transaction)
    ensures TotalIncome(ts + [t]) == TotalIncome(ts) + (if t.kind == Income then t.amount else 0)
    ensures TotalExpenses(ts + [t]) == TotalExpenses(ts) + (if t.kind == Expense then t.amount else 0)
  {
    OfKindSnoc(ts, t, Income);
    OfKindSnoc(ts, t, Expense);
    if t.kind == Income {
      SumAmountsSnoc(OfKind(ts, Income), t);
      assert OfKind(ts + [t], Expense) == OfKind(ts, Expense);
    } else {
      SumAmountsSnoc(OfKind(ts, Expense), t);
      assert OfKind(ts + [t], Income) == OfKind(ts, Income);
    }
  }

  /** The signed fold agrees with income minus expenses, for every list. */
  lemma {:induction false} BalanceIsIncomeMinusExpenses(ts: seq<Transaction>)
    ensures Balance(ts) == TotalIncome(ts) - TotalExpenses(ts)
    decreases |ts|
  {
    if ts != [] {
      var p := ts[..|ts| - 1];
      var t := ts[|ts| - 1];
      assert ts == p + [t];
      BalanceIsIncomeMinusExpenses(p);
      TotalsSnoc(p, t);
    }
  }

  /** Taking out the record at index `j` lowers the sum by its amount. */
  lemma {:induction false} SumAmountsRemove(ts: seq<Transaction>, j: nat)
    requires j < |ts|
    ensures SumAmounts(ts) == SumAmounts(ts[..j] + ts[j + 1..]) + ts[j].amount
    decreases |ts|
  {
    if j < |ts| - 1 {
      var p := ts[..|ts| - 1];
      var t := ts[|ts| - 1];
      SumAmountsRemove(p, j);
      assert ts[..j] + ts[j + 1..] == (p[..j] + p[j + 1..]) + [t];
      SumAmountsSnoc(p[..j] + p[j + 1..], t);
    } else {
      assert ts[..j] + ts[j + 1..] == ts[..|ts| - 1];
    }
  }

  /** The sum does not depend on the order of the records. */
  lemma {:induction false} SumAmountsPermutation(ts: seq<Transaction>, us: seq<Transaction>)
    requires multiset(ts) == multiset(us)
    ensures SumAmounts(ts) == SumAmounts(us)
    decreases |ts|
  {
    if ts == [] {
      assert |us| == |multiset(us)| == 0;
    } else {
      var p := ts[..|ts| - 1];
      var t := ts[|ts| - 1];
      assert ts == p + [t];
      assert t in multiset(us);
      var j :| 0 <= j < |us| && us[j] == t;
      var rest := us[..j] + us[j + 1..];
      assert us == us[..j] + [t] + us[j + 1..];
      assert multiset(us) == multiset(us[..j]) + multiset{t} + multiset(us[j + 1..]);
      assert multiset(ts) == multiset(p) + multiset{t};
      assert multiset(rest) == multiset(us[..j]) + multiset(us[j + 1..]);
      forall x ensures multiset(rest)[x] == multiset(p)[x] {
        assert multiset(us)[x] == multiset(us[..j])[x] + multiset{t}[x] + multiset(us[j + 1..])[x];
      }
      assert multiset(rest) == multiset(p);
      SumAmountsPermutation(p, rest);
      SumAmountsRemove(us, j);
    }
  }

  /** The totals of a list do not depend on the order in which the records arrive. */
  lemma TotalsPermutation(ts: seq<Transaction>, us: seq<Transaction>)
    requires multiset(ts) == multiset(us)
    ensures ComputeTotals(ts) == ComputeTotals(us)
  {
    FilterPermutation(ts, us, IsKind(Income));
    FilterPermutation(ts, us, IsKind(Expense));
    SumAmountsPermutation(OfKind(ts, Income), OfKind(us, Income));
    SumAmountsPermutation(OfKind(ts, Expense), OfKind(us, Expense));
  }

  /** One slice of the income/expense pie. */
  datatype Slice = Slice(name: string, value: int)

  /** The fixed two-slice split: income first, expenses second. */
  function PieData(income: int, expenses: int): (p: seq<Slice>)
    ensures |p| == 2
    ensures p[0].name == "Income" && p[0].value == income
    ensures p[1].name == "Expenses" && p[1].value == expenses
  {
    [Slice("Income", income), Slice("Expenses", expenses)]
  }

  /** Fed with the totals, the two slices differ by exactly the balance. */
  lemma PieDataMatchesBalance(ts: seq<Transaction>)
    ensures var p := PieData(TotalIncome(ts), TotalExpenses(ts));
      p[0].value - p[1].value == Balance(ts)
  {
    BalanceIsIncomeMinusExpenses(ts);
  }

  /**
   * The share of income left after expenses, in percent; 0 when there is no
   * positive income, so that nothing is divided by zero.
   */
  function SavingsPercentage(income: int, expenses: int): (r: real)
    ensures income <= 0 ==> r == 0.0
    ensures income > 0 ==> r * income as real == (income - expenses) as real * 100.0
    ensures income > 0 ==> (r <= 100.0 <==> expenses >= 0)
    ensures income > 0 ==> (r >= 0.0 <==> expenses <= income)
  {
    if income > 0 then ((income - expenses) as real / income as real) * 100.0 else 0.0
  }

  /** An empty or non-negative list of amounts has a non-negative sum. */
  lemma {:induction false} SumAmountsNonNegative(ts: seq<Transaction>)
    requires forall t :: t in ts ==> t.amount >= 0
    ensures SumAmounts(ts) >= 0
    decreases |ts|
  {
    if ts != [] {
      SumAmountsNonNegative(ts[..|ts| - 1]);
    }
  }

  /** With no negative amounts, no more than all of the income can be saved. */
  lemma SavingsAtMostHundred(ts: seq<Transaction>)
    requires forall t :: t in ts ==> t.amount >= 0
    ensures SavingsPercentage(TotalIncome(ts), TotalExpenses(ts)) <= 100.0
  {
    forall t | t in OfKind(ts, Expense)
      ensures t.amount >= 0
    {
      FilterMembership(ts, IsKind(Expense), t);
    }
    SumAmountsNonNegative(OfKind(ts, Expense));
  }

  /** The width of the savings bar, as written: the percentage capped at 100, with no lower bound. */
  function BarWidth(savings: real): (w: real)
    ensures w <= 100.0 && w <= savings
    ensures savings <= 100.0 ==> w == savings
    ensures savings >= 100.0 ==> w == 100.0
  {
    if savings < 100.0 then savings else 100.0
  }

  /** Spending more than was earned gives a negative percentage, and the bar a negative width. */
  lemma BarWidthNegativeWhenOverspent()
    ensures SavingsPercentage(100, 120) == -20.0
    ensures BarWidth(SavingsPercentage(100, 120)) < 0.0
  {
  }

  /** The width of the savings bar kept within the bar: the percentage clamped to [0, 100]. */
  function ClampedBarWidth(savings: real): (w: real)
    ensures 0.0 <= w <= 100.0
    ensures 0.0 <= savings <= 100.0 ==> w == savings
    ensures savings < 0.0 ==> w == 0.0
    ensures savings > 100.0 ==> w == 100.0
  {
    if savings < 0.0 then 0.0 else BarWidth(savings)
  }
}
