/**
  Properties of the ledger aggregator that relate several rows or several calls:
  the totals are a sum of independent per-row contributions, so they split over
  concatenation, ignore row order and ignore inert rows; conversion happens once;
  and the derived net worth and net cash flow agree with direct signed sums.
 */
module LedgerProperties {
  import opened Labels
  import opened Ledger

  /** An empty ledger yields four zero totals, whatever the rates. */
  lemma EmptyLedgerIsZero(rates: Rates)
    ensures Aggregate([], rates) == Totals(0.0, 0.0, 0.0, 0.0)
  {
  }

  /** A one-row ledger yields exactly that row's contribution. */
  lemma SingleRow(row: Row, rates: Rates)
    ensures Aggregate([row], rates) == Contribution(row, rates)
  {
    assert [row][..0] == [];
  }

  /** Appending a row adds its contribution to the totals so far. */
  lemma AggregateSnoc(rows: seq<Row>, row: Row, rates: Rates)
    ensures Aggregate(rows + [row], rates) == Add(Aggregate(rows, rates), Contribution(row, rates))
  {
    assert (rows + [row])[..|rows|] == rows;
  }

  /** Aggregating a concatenation is the component-wise sum of aggregating the parts. */
  lemma {:induction false} AggregateConcat(a: seq<Row>, b: seq<Row>, rates: Rates)
    ensures Aggregate(a + b, rates) == Add(Aggregate(a, rates), Aggregate(b, rates))
    decreases |b|
  {
    if |b| == 0 {
      assert a + b == a;
    } else {
      var last := b[|b| - 1];
      var front := b[..|b| - 1];
      assert (a + b)[..|a + b| - 1] == a + front;
      assert (a + b)[|a + b| - 1] == last;
      AggregateConcat(a, front, rates);
    }
  }

  /** Taking one row out of the middle of a ledger subtracts exactly its contribution. */
  lemma AggregateRemove(left: seq<Row>, x: Row, right: seq<Row>, rates: Rates)
    ensures Aggregate(left + [x] + right, rates) == Add(Aggregate(left + right, rates), Contribution(x, rates))
  {
    AggregateConcat(left, right, rates);
    AggregateConcat(left + [x], right, rates);
    AggregateConcat(left, [x], rates);
    SingleRow(x, rates);
  }

  /** Removing the same row from both sides of a multiset equality keeps them equal. */
  lemma MultisetRemove(front: seq<Row>, x: Row, left: seq<Row>, right: seq<Row>)
    requires multiset(front + [x]) == multiset(left + [x] + right)
    ensures multiset(front) == multiset(left + right)
  {
    var f, r := multiset(front), multiset(left + right);
    assert multiset(front + [x]) == f + multiset{x};
    assert multiset(left + [x] + right) == multiset(left) + multiset{x} + multiset(right);
    assert f + multiset{x} == r + multiset{x};
    assert f == (f + multiset{x}) - multiset{x};
    assert r == (r + multiset{x}) - multiset{x};
  }

  /** Permuting the rows leaves all four totals unchanged. */
  lemma {:induction false} AggregatePermutation(a: seq<Row>, b: seq<Row>, rates: Rates)
    requires multiset(a) == multiset(b)
    ensures Aggregate(a, rates) == Aggregate(b, rates)
    decreases |a|
  {
    if |a| == 0 {
      assert |b| == |multiset(b)| == 0;
    } else {
      var n := |a| - 1;
      var x := a[n];
      assert a == a[..n] + [x];
      assert x in multiset(a);
      assert x in multiset(b);
      var k :| 0 <= k < |b| && b[k] == x;
      var left, right := b[..k], b[k + 1..];
      assert b == left + [x] + right;
      MultisetRemove(a[..n], x, left, right);
      AggregatePermutation(a[..n], left + right, rates);
      AggregateRemove(left, x, right, rates);
    }
  }

  /** A row is inert when it adds nothing: its category is unrecognised, or it is an
      income or expense row whose frequency is unrecognised. */
  predicate Inert(row: Row)
  {
    || row.category !in {"Asset", "Liability", "Income", "Expense"}
    || (row.category in {"Income", "Expense"} && row.frequency !in {"Monthly", "Quarterly", "Yearly"})
  }

  /** An inert row contributes zero to every total, whatever its amount, currency and frequency. */
  lemma InertContributesNothing(row: Row, rates: Rates)
    requires Inert(row)
    ensures Contribution(row, rates) == Zero
  {
  }

  /** Inserting an inert row anywhere in a ledger changes none of the totals, whatever its amount or currency. */
  lemma InertRowIgnored(a: seq<Row>, row: Row, b: seq<Row>, rates: Rates)
    requires Inert(row)
    ensures Aggregate(a + [row] + b, rates) == Aggregate(a + b, rates)
  {
    AggregateRemove(a, row, b, rates);
    InertContributesNothing(row, rates);
    var rest := Aggregate(a + b, rates);
    assert Add(rest, Zero) == rest;
  }

  /** Appending a row moves at most one of the four totals, and a recognised
      balance-sheet row always moves the one it names by its converted amount. */
  lemma AppendMovesOneBucket(rows: seq<Row>, row: Row, rates: Rates)
    ensures var before, after := Aggregate(rows, rates), Aggregate(rows + [row], rates);
      && AtMostOneBucket(Totals(after.assets - before.assets, after.liabilities - before.liabilities,
                                after.monthlyIncome - before.monthlyIncome, after.monthlyExpense - before.monthlyExpense))
      && (row.category == "Asset" ==> after.assets == before.assets + Converted(row, rates))
      && (row.category == "Liability" ==> after.liabilities == before.liabilities + Converted(row, rates))
  {
    assert (rows + [row])[..|rows|] == rows;
    ContributionBuckets(row, rates);
  }

  /** A row already expressed in TWD, i.e. the row whose amount is this row's converted amount. */
  function InTwd(row: Row, rates: Rates): Row
  {
    row.(amount := Converted(row, rates), currency := "TWD")
  }

  /** Nothing after `Converted` converts again: a row contributes exactly what its TWD
      restatement contributes. A row already in TWD is left as it is by restating it,
      because TWD is one of the unconverted currencies. */
  lemma ConvertedExactlyOnce(row: Row, rates: Rates)
    ensures Contribution(row, rates) == Contribution(InTwd(row, rates), rates)
    ensures InTwd(InTwd(row, rates), rates) == InTwd(row, rates)
  {
    ContributionBuckets(row, rates);
    ContributionBuckets(InTwd(row, rates), rates);
  }

  /** Scaling a row's amount scales its converted amount by the same factor. */
  lemma ConvertedScales(row: Row, scaled: Row, k: real, rates: Rates)
    requires scaled.currency == row.currency && scaled.amount == k * row.amount
    ensures Converted(scaled, rates) == k * Converted(row, rates)
  {
    if row.currency == "USD" {
      assert (k * row.amount) * rates.usdToTwd == k * (row.amount * rates.usdToTwd);
    } else if row.currency == "THB" {
      assert (k * row.amount) * rates.thbToTwd == k * (row.amount * rates.thbToTwd);
    }
  }

  /** Twelve times a monthly amount per year, or three times it per quarter, has the
      same monthly share as the monthly amount. */
  lemma MonthlyShareAgrees(monthly: Row, yearly: Row, quarterly: Row, rates: Rates)
    requires monthly.frequency == "Monthly"
    requires yearly == monthly.(amount := 12.0 * monthly.amount, frequency := "Yearly")
    requires quarterly == monthly.(amount := 3.0 * monthly.amount, frequency := "Quarterly")
    ensures MonthlyShare(yearly, rates) == MonthlyShare(monthly, rates)
    ensures MonthlyShare(quarterly, rates) == MonthlyShare(monthly, rates)
  {
  }

  /** The divisor table is consistent: an income or expense of twelve times an amount per
      year, or three times it per quarter, contributes the same as the amount per month. */
  lemma FrequencyNormalisationAgrees(category: string, amount: real, currency: string, rates: Rates)
    requires category == "Income" || category == "Expense"
    ensures Contribution(Row(category, 12.0 * amount, currency, "Yearly"), rates)
         == Contribution(Row(category, amount, currency, "Monthly"), rates)
    ensures Contribution(Row(category, 3.0 * amount, currency, "Quarterly"), rates)
         == Contribution(Row(category, amount, currency, "Monthly"), rates)
  {
    var monthly := Row(category, amount, currency, "Monthly");
    MonthlyShareAgrees(monthly, Row(category, 12.0 * amount, currency, "Yearly"),
                       Row(category, 3.0 * amount, currency, "Quarterly"), rates);
  }

  /** What a row adds to net worth: its converted amount for an asset, minus it for a liability. */
  function BalanceEffect(row: Row, rates: Rates): real
  {
    if row.category == "Asset" then Converted(row, rates)
    else if row.category == "Liability" then -Converted(row, rates)
    else 0.0
  }

  /** What a row adds to monthly net flow: its monthly share for income, minus it for expense. */
  function FlowEffect(row: Row, rates: Rates): real
  {
    if row.category == "Income" then MonthlyShare(row, rates)
    else if row.category == "Expense" then -MonthlyShare(row, rates)
    else 0.0
  }

  /** Net worth of a ledger, summed row by row from the first row. */
  function SignedBalance(rows: seq<Row>, rates: Rates): real
  {
    if |rows| == 0 then 0.0 else BalanceEffect(rows[0], rates) + SignedBalance(rows[1..], rates)
  }

  /** Monthly net flow of a ledger, summed row by row from the first row. */
  function SignedFlow(rows: seq<Row>, rates: Rates): real
  {
    if |rows| == 0 then 0.0 else FlowEffect(rows[0], rates) + SignedFlow(rows[1..], rates)
  }

  /** A single row's effect on net worth and on net flow, read off its contribution. */
  lemma ContributionEffects(row: Row, rates: Rates)
    ensures NetWorth(Contribution(row, rates)) == BalanceEffect(row, rates)
    ensures MonthlyNetFlow(Contribution(row, rates)) == FlowEffect(row, rates)
  {
    match ParseCategory(row.category)
    case Asset =>
    case Liability =>
    case Income =>
    case Expense =>
    case OtherCategory(_) =>
      assert row.category !in {"Asset", "Liability", "Income", "Expense"};
  }

  /** Net worth derived from the returned totals equals the direct signed sum over the rows. */
  lemma {:induction false} NetWorthIsSignedBalance(rows: seq<Row>, rates: Rates)
    ensures NetWorth(Aggregate(rows, rates)) == SignedBalance(rows, rates)
    decreases |rows|
  {
    if |rows| > 0 {
      var head, tail := rows[0], rows[1..];
      assert rows == [head] + tail;
      AggregateConcat([head], tail, rates);
      SingleRow(head, rates);
      ContributionEffects(head, rates);
      NetWorthIsSignedBalance(tail, rates);
      var h, t := Contribution(head, rates), Aggregate(tail, rates);
      assert NetWorth(Add(h, t)) == NetWorth(h) + NetWorth(t);
    }
  }

  /** Monthly net flow derived from the returned totals equals the direct signed sum over the rows. */
  lemma {:induction false} NetFlowIsSignedFlow(rows: seq<Row>, rates: Rates)
    ensures MonthlyNetFlow(Aggregate(rows, rates)) == SignedFlow(rows, rates)
    decreases |rows|
  {
    if |rows| > 0 {
      var head, tail := rows[0], rows[1..];
      assert rows == [head] + tail;
      AggregateConcat([head], tail, rates);
      SingleRow(head, rates);
      ContributionEffects(head, rates);
      NetFlowIsSignedFlow(tail, rates);
      var h, t := Contribution(head, rates), Aggregate(tail, rates);
      assert MonthlyNetFlow(Add(h, t)) == MonthlyNetFlow(h) + MonthlyNetFlow(t);
    }
  }

  /** Income and expense rows never move net worth; asset and liability rows never move net flow. */
  lemma DerivedFiguresAreSeparated(rows: seq<Row>, row: Row, rates: Rates)
    ensures row.category !in {"Asset", "Liability"} ==>
              NetWorth(Aggregate(rows + [row], rates)) == NetWorth(Aggregate(rows, rates))
    ensures row.category !in {"Income", "Expense"} ==>
              MonthlyNetFlow(Aggregate(rows + [row], rates)) == MonthlyNetFlow(Aggregate(rows, rates))
  {
    assert (rows + [row])[..|rows|] == rows;
    ContributionBuckets(row, rates);
  }

  /** One USD asset of 100 at 32.5 is worth 3250; the same asset in TWD is worth 100. */
  lemma CurrencyExample()
    ensures Aggregate([Row("Asset", 100.0, "USD", "")], Rates(32.5, 0.92)).assets == 3250.0
    ensures Aggregate([Row("Asset", 100.0, "TWD", "")], Rates(32.5, 0.92)).assets == 100.0
  {
    SingleRow(Row("Asset", 100.0, "USD", ""), Rates(32.5, 0.92));
    assert Contribution(Row("Asset", 100.0, "USD", ""), Rates(32.5, 0.92)) == Totals(3250.0, 0.0, 0.0, 0.0);
    SingleRow(Row("Asset", 100.0, "TWD", ""), Rates(32.5, 0.92));
    assert Contribution(Row("Asset", 100.0, "TWD", ""), Rates(32.5, 0.92)) == Totals(100.0, 0.0, 0.0, 0.0);
  }

  /** The five rows of the household ledger below, one contribution each. */
  lemma ScenarioContributions()
    ensures Contribution(Row("Asset", 500000.0, "TWD", ""), Rates(31.5, 0.92)) == Totals(500000.0, 0.0, 0.0, 0.0)
    ensures Contribution(Row("Asset", 30000.0, "USD", ""), Rates(31.5, 0.92)) == Totals(945000.0, 0.0, 0.0, 0.0)
    ensures Contribution(Row("Liability", 8000000.0, "TWD", ""), Rates(31.5, 0.92)) == Totals(0.0, 8000000.0, 0.0, 0.0)
    ensures Contribution(Row("Income", 70000.0, "TWD", "Monthly"), Rates(31.5, 0.92)) == Totals(0.0, 0.0, 70000.0, 0.0)
    ensures Contribution(Row("Expense", 40000.0, "TWD", "Yearly"), Rates(31.5, 0.92)) == Totals(0.0, 0.0, 0.0, 10000.0 / 3.0)
  {
  }

  /** Five rows aggregate to the sum of their five contributions, in order. */
  lemma AggregateFive(r0: Row, r1: Row, r2: Row, r3: Row, r4: Row, rates: Rates)
    ensures Aggregate([r0, r1, r2, r3, r4], rates)
         == Add(Add(Add(Add(Contribution(r0, rates), Contribution(r1, rates)), Contribution(r2, rates)),
                    Contribution(r3, rates)), Contribution(r4, rates))
  {
    SingleRow(r0, rates);
    AggregateSnoc([r0], r1, rates);
    assert [r0] + [r1] == [r0, r1];
    AggregateSnoc([r0, r1], r2, rates);
    assert [r0, r1] + [r2] == [r0, r1, r2];
    AggregateSnoc([r0, r1, r2], r3, rates);
    assert [r0, r1, r2] + [r3] == [r0, r1, r2, r3];
    AggregateSnoc([r0, r1, r2, r3], r4, rates);
    assert [r0, r1, r2, r3] + [r4] == [r0, r1, r2, r3, r4];
  }

  /** A household ledger of two assets (one in USD), a mortgage, a salary and a yearly expense. */
  lemma EndToEndScenario(r0: Row, r1: Row, r2: Row, r3: Row, r4: Row, rates: Rates)
    requires r0 == Row("Asset", 500000.0, "TWD", "") && r1 == Row("Asset", 30000.0, "USD", "")
    requires r2 == Row("Liability", 8000000.0, "TWD", "") && r3 == Row("Income", 70000.0, "TWD", "Monthly")
    requires r4 == Row("Expense", 40000.0, "TWD", "Yearly")
    requires rates == Rates(31.5, 0.92)
    ensures Aggregate([r0, r1, r2, r3, r4], rates) == Totals(1445000.0, 8000000.0, 70000.0, 10000.0 / 3.0)
    ensures NetWorth(Aggregate([r0, r1, r2, r3, r4], rates)) == -6555000.0
    ensures MonthlyNetFlow(Aggregate([r0, r1, r2, r3, r4], rates)) == 200000.0 / 3.0
  {
    ScenarioContributions();
    AggregateFive(r0, r1, r2, r3, r4, rates);
  }
}
