/**
  The ledger aggregator: one pass over the ledger rows that converts every
  amount to TWD and adds it to at most one of four totals (assets,
  liabilities, monthly income, monthly expense), normalising recurring
  income and expense to a per-month figure.
 */
module Ledger {
  import opened Labels

  /** One ledger row, with the text cells the aggregator inspects kept as text. */
  datatype Row = Row(category: string, amount: real, currency: string, frequency: string)

  /** The two caller-supplied exchange rates. They are used as plain multipliers, never validated. */
  datatype Rates = Rates(usdToTwd: real, thbToTwd: real)

  /** The four totals the aggregator returns, all in TWD. */
  datatype Totals = Totals(assets: real, liabilities: real, monthlyIncome: real, monthlyExpense: real)

  const Zero := Totals(0.0, 0.0, 0.0, 0.0)

  /** Component-wise sum of two sets of totals. */
  function Add(a: Totals, b: Totals): Totals
  {
    Totals(a.assets + b.assets, a.liabilities + b.liabilities,
           a.monthlyIncome + b.monthlyIncome, a.monthlyExpense + b.monthlyExpense)
  }

  /** True when no more than one of the four totals is non-zero. */
  predicate AtMostOneBucket(t: Totals)
  {
    var nonZero := (if t.assets != 0.0 then 1 else 0) + (if t.liabilities != 0.0 then 1 else 0)
                 + (if t.monthlyIncome != 0.0 then 1 else 0) + (if t.monthlyExpense != 0.0 then 1 else 0);
    nonZero <= 1
  }

  /** The row's amount in TWD: USD and THB amounts are multiplied by their rate,
      every other currency text is taken to be TWD already. */
  function Converted(row: Row, rates: Rates): (a: real)
    ensures row.currency == "USD" ==> a == row.amount * rates.usdToTwd
    ensures row.currency == "THB" ==> a == row.amount * rates.thbToTwd
    ensures row.currency != "USD" && row.currency != "THB" ==> a == row.amount
  {
    match ParseCurrency(row.currency)
    case USD => row.amount * rates.usdToTwd
    case THB => row.amount * rates.thbToTwd
    case OtherCurrency(_) => row.amount
  }

  /** The monthly-equivalent of a converted amount: the converted amount divided by the
      number of months in the period, or zero for an unrecognised frequency. */
  function MonthlyShare(row: Row, rates: Rates): (m: real)
    ensures row.frequency == "Monthly" ==> m == Converted(row, rates)
    ensures row.frequency == "Quarterly" ==> m == Converted(row, rates) / 3.0
    ensures row.frequency == "Yearly" ==> m == Converted(row, rates) / 12.0
    ensures row.frequency !in {"Monthly", "Quarterly", "Yearly"} ==> m == 0.0
  {
    var f := ParseFrequency(row.frequency);
    if f.OtherFrequency? then 0.0 else Converted(row, rates) / MonthsPerPeriod(f)
  }

  /** What one row adds to the totals: its converted amount to the bucket its category names,
      normalised to a month for income and expense (see `ContributionBuckets`). */
  function Contribution(row: Row, rates: Rates): Totals
  {
    match ParseCategory(row.category)
    case Asset => Totals(Converted(row, rates), 0.0, 0.0, 0.0)
    case Liability => Totals(0.0, Converted(row, rates), 0.0, 0.0)
    case Income => Totals(0.0, 0.0, MonthlyShare(row, rates), 0.0)
    case Expense => Totals(0.0, 0.0, 0.0, MonthlyShare(row, rates))
    case OtherCategory(_) => Zero
  }

  /** Each recognised category feeds exactly its own bucket; every other category feeds none,
      and no row ever feeds more than one bucket. */
  lemma ContributionBuckets(row: Row, rates: Rates)
    ensures AtMostOneBucket(Contribution(row, rates))
    ensures row.category == "Asset" ==> Contribution(row, rates) == Totals(Converted(row, rates), 0.0, 0.0, 0.0)
    ensures row.category == "Liability" ==> Contribution(row, rates) == Totals(0.0, Converted(row, rates), 0.0, 0.0)
    ensures row.category == "Income" ==> Contribution(row, rates) == Totals(0.0, 0.0, MonthlyShare(row, rates), 0.0)
    ensures row.category == "Expense" ==> Contribution(row, rates) == Totals(0.0, 0.0, 0.0, MonthlyShare(row, rates))
    ensures row.category !in {"Asset", "Liability", "Income", "Expense"} ==> Contribution(row, rates) == Zero
  {
  }

  /** The totals of a ledger: the sum of the rows' contributions, accumulated in row order. */
  function Aggregate(rows: seq<Row>, rates: Rates): Totals
  {
    if |rows| == 0 then Zero
    else Add(Aggregate(rows[..|rows| - 1], rates), Contribution(rows[|rows| - 1], rates))
  }

  /** The body of the aggregation loop: convert one row's amount, then add it
      (normalised to a month for income and expense) to the running totals. */
  method AccumulateRow(acc: Totals, row: Row, usdtwd: real, thbtwd: real) returns (next: Totals)
    ensures next == Add(acc, Contribution(row, Rates(usdtwd, thbtwd)))
  {
    ContributionBuckets(row, Rates(usdtwd, thbtwd));
    var amount := row.amount;
    if row.currency == "USD" {
      amount := amount * usdtwd;
    } else if row.currency == "THB" {
      amount := amount * thbtwd;
    }
    assert amount == Converted(row, Rates(usdtwd, thbtwd));
    var cat, freq := row.category, row.frequency;
    next := acc;
    if cat == "Asset" {
      next := next.(assets := next.assets + amount);
    } else if cat == "Liability" {
      next := next.(liabilities := next.liabilities + amount);
    } else if cat == "Income" {
      if freq == "Monthly" {
        next := next.(monthlyIncome := next.monthlyIncome + amount);
      } else if freq == "Quarterly" {
        next := next.(monthlyIncome := next.monthlyIncome + amount / 3.0);
      } else if freq == "Yearly" {
        next := next.(monthlyIncome := next.monthlyIncome + amount / 12.0);
      }
    } else if cat == "Expense" {
      if freq == "Monthly" {
        next := next.(monthlyExpense := next.monthlyExpense + amount);
      } else if freq == "Quarterly" {
        next := next.(monthlyExpense := next.monthlyExpense + amount / 3.0);
      } else if freq == "Yearly" {
        next := next.(monthlyExpense := next.monthlyExpense + amount / 12.0);
      }
    }
  }

  /** The aggregation loop: four running totals, starting at zero, updated row by row in order. */
  method CalculateMetrics(rows: seq<Row>, usdtwd: real, thbtwd: real) returns (totals: Totals)
    ensures totals == Aggregate(rows, Rates(usdtwd, thbtwd))
  {
    totals := Zero;
    var i := 0;
    while i < |rows|
      invariant 0 <= i <= |rows|
      invariant totals == Aggregate(rows[..i], Rates(usdtwd, thbtwd))
    {
      totals := AccumulateRow(totals, rows[i], usdtwd, thbtwd);
      assert rows[..i + 1][..i] == rows[..i];
      i := i + 1;
    }
    assert rows[..i] == rows;
  }

  /** Net worth, derived from the returned totals. */
  function NetWorth(t: Totals): real
  {
    t.assets - t.liabilities
  }

  /** Monthly net cash flow, derived from the returned totals. */
  function MonthlyNetFlow(t: Totals): real
  {
    t.monthlyIncome - t.monthlyExpense
  }
}
