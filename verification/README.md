# Household ledger aggregator — Dafny model

This project models the computational core of the home-finance dashboard (`app.py`).

The main part is the ledger aggregator `calculate_metrics`. It makes one pass over the ledger rows. Each row has a category, an amount, a currency and a frequency. The pass folds the rows into four TWD totals:

- total assets;
- total liabilities;
- monthly income;
- monthly expense.

For each row, the aggregator does three things:

1. It converts the amount to TWD. A USD amount is multiplied by the USD rate and a THB amount by the THB rate. Any other currency text is left as it is.
2. It adds the converted amount to the bucket the category names.
3. For an Income or Expense row, it first divides the converted amount by 1, 3 or 12 for `Monthly`, `Quarterly` or `Yearly`. Any other frequency contributes nothing.

Net worth and monthly net cash flow are derived from the four returned totals.

The second modelled piece is the choice of the default entry in the list of model names. It is the first name that contains both `1.5-pro` and `latest`, or index 0 when no name does.

Modules:

- `Labels` (`labels.dfy`) holds the label vocabulary. Categories, currencies and frequencies are datatypes with an `Other…(text)` case. Exact-match classification from text comes with round-trip lemmas.
- `Ledger` (`ledger.dfy`) holds the data model and the fold:
  - the data model is `Row`, `Rates` and `Totals`;
  - `Converted`, `MonthlyShare` and `Contribution` handle one row;
  - the recursive reference fold is `Aggregate`;
  - the source's loop is `CalculateMetrics`, with `AccumulateRow` as the loop body;
  - the derived figures are `NetWorth` and `MonthlyNetFlow`.
- `LedgerProperties` (`ledger_properties.dfy`) holds properties that relate several rows or calls:
  - concatenation and permutation;
  - inert rows;
  - single conversion;
  - consistency of the divisor table;
  - net worth and net flow as signed sums;
  - worked scenarios.
- `ModelPicker` (`model_picker.dfy`) holds the substring test, proved equivalent to "occurs at some offset", and the default-index search.

Amounts and rates are `real`, so every equation is exact. A `Row` keeps the category, currency and frequency cells as text. The code compares them against exact English strings. Keeping the text means no value can exist that the code could not produce, such as an "other" category whose text is `Asset`.

Two behaviours of `app.py` are worth stating explicitly, because a reader might expect otherwise:

- `app.py` does not skip rows whose amount is not a number: the loop at app.py:86-102 has no recovery path around the conversion and the additions.
- `app.py` matches only the exact English labels (app.py:87-102), so the model treats localised labels such as 資產 or 每月 as unrecognised text (`Labels.LocalisedLabelsAreNotRecognised`).

## Model

| member | source | states |
|---|---|---|
| Labels.ParseCategory | app.py:93-99 | a category is recognised if and only if its text is exactly `Asset`, `Liability`, `Income` or `Expense`; any other text is kept unchanged as an unrecognised category |
| Labels.ParseCurrency | app.py:87-88 | a currency is USD if and only if its text is exactly `USD`, and THB if and only if it is exactly `THB`; every other text, TWD included, is kept as an unconverted code |
| Labels.ParseFrequency | app.py:96-102 | a frequency is recognised if and only if its text is exactly `Monthly`, `Quarterly` or `Yearly`; anything else is kept as unrecognised text |
| Labels.MonthsPerPeriod | app.py:96-98 | the divisor is 1 exactly for Monthly, 3 exactly for Quarterly and 12 exactly for Yearly |
| Labels.CategoryTextRoundTrip | app.py:90 | classifying any category text and printing it back gives the same text, so classification loses nothing |
| Labels.CategoryValueRoundTrip | app.py:93-99 | printing a canonical category and classifying the text gives the same category |
| Labels.ParseCategoryCanonical | app.py:93-99 | classification never produces an "other" category whose text is a recognised label |
| Labels.CurrencyTextRoundTrip | app.py:87-88 | classifying any currency text and printing it back gives the same text |
| Labels.CurrencyValueRoundTrip | app.py:87-88 | printing a canonical currency and classifying it gives the same currency |
| Labels.FrequencyTextRoundTrip | app.py:91 | classifying any frequency text and printing it back gives the same text |
| Labels.FrequencyValueRoundTrip | app.py:96-102 | printing a canonical frequency and classifying it gives the same frequency |
| Labels.LocalisedLabelsAreNotRecognised | app.py:93-102 | the localised category and frequency labels, and the lower-case `usd`, are not aliases: they classify as unrecognised text |
| Ledger.Converted | app.py:86-88 | a USD amount is multiplied by the USD rate once, a THB amount by the THB rate once, and any other currency leaves the amount unchanged |
| Ledger.MonthlyShare | app.py:95-102 | the monthly share is the converted amount, or a third of it, or a twelfth of it for Monthly, Quarterly or Yearly; any other frequency gives zero |
| Ledger.Contribution | app.py:86-102 | no contract of its own: the totals one row adds, dispatched on its category; `Ledger.ContributionBuckets` states what each category adds and that at most one total moves |
| Ledger.ContributionBuckets | app.py:93-102 | Asset and Liability rows add their converted amount only to their own total; Income and Expense rows add their monthly share only to their own monthly total; any other category adds nothing; no row touches more than one total |
| Ledger.Aggregate | app.py:81-103 | no contract of its own: the in-order sum of the rows' contributions starting from four zeros; `Ledger.CalculateMetrics` proves the source's loop equal to it, and the `LedgerProperties` fold lemmas describe it |
| Ledger.AccumulateRow | app.py:86-102 | one iteration of the loop adds exactly that row's contribution to the running totals |
| Ledger.CalculateMetrics | app.py:80-103 | the loop starting from four zeros returns the sum of all rows' contributions, in row order |
| Ledger.NetWorth | app.py:106 | no contract of its own: total assets minus total liabilities of the returned totals; `LedgerProperties.NetWorthIsSignedBalance` relates it to the rows |
| Ledger.MonthlyNetFlow | app.py:107 | no contract of its own: monthly income minus monthly expense of the returned totals; `LedgerProperties.NetFlowIsSignedFlow` relates it to the rows |
| LedgerProperties.EmptyLedgerIsZero | app.py:81-103 | an empty ledger yields four zero totals for any rates |
| LedgerProperties.SingleRow | app.py:85-103 | a one-row ledger yields exactly that row's contribution |
| LedgerProperties.AggregateSnoc | app.py:85-102 | appending a row adds its contribution to the totals of the rows before it |
| LedgerProperties.AggregateConcat | app.py:85-103 | the totals of a concatenation are the component-wise sum of the totals of the parts |
| LedgerProperties.AggregateRemove | app.py:85-103 | removing one row from anywhere in the ledger subtracts exactly its contribution |
| LedgerProperties.AggregatePermutation | app.py:85-103 | any two orderings of the same rows (the same multiset) give identical totals |
| LedgerProperties.InertContributesNothing | app.py:93-102 | a row with an unrecognised category, or an Income/Expense row with an unrecognised frequency, contributes zero to every total |
| LedgerProperties.InertRowIgnored | app.py:93-102 | inserting such an inert row anywhere in a ledger leaves all four totals unchanged, whatever its amount or currency |
| LedgerProperties.AppendMovesOneBucket | app.py:93-102 | appending a row changes at most one of the four totals, and an Asset (Liability) row raises total assets (liabilities) by its converted amount |
| LedgerProperties.ConvertedExactlyOnce | app.py:86-102 | nothing after the conversion at app.py:86-88 converts again: a row contributes exactly what the same row restated in TWD at its converted amount contributes; restating a row already in TWD leaves it unchanged, because TWD is left unconverted |
| LedgerProperties.ConvertedScales | app.py:86-88 | conversion is linear: scaling a row's amount scales its converted amount by the same factor |
| LedgerProperties.MonthlyShareAgrees | app.py:96-98 | twelve times an amount per year, or three times it per quarter, has the same monthly share as the amount per month |
| LedgerProperties.FrequencyNormalisationAgrees | app.py:95-102 | for Income and Expense rows, yearly 12x and quarterly 3x contribute exactly what monthly x contributes, in any currency; each frequency divides the converted amount |
| LedgerProperties.ContributionEffects | app.py:106-107 | a row's effect on net worth is +converted for an asset, -converted for a liability and 0 otherwise; its effect on net flow is +share for income, -share for expense and 0 otherwise |
| LedgerProperties.NetWorthIsSignedBalance | app.py:106 | net worth derived from the returned totals equals the signed sum of asset and liability amounts over the rows |
| LedgerProperties.NetFlowIsSignedFlow | app.py:107 | monthly net flow derived from the returned totals equals the signed sum of income and expense monthly shares over the rows |
| LedgerProperties.DerivedFiguresAreSeparated | app.py:106-107 | a row that is neither Asset nor Liability never moves net worth, and a row that is neither Income nor Expense never moves net flow |
| LedgerProperties.CurrencyExample | app.py:86-93 | a USD asset of 100 at rate 32.5 gives total assets 3250; the same asset in TWD gives 100 |
| LedgerProperties.ScenarioContributions | app.py:86-102 | the five rows of the household scenario contribute 500000 and 945000 to assets, 8000000 to liabilities, 70000 to income and 10000/3 to expense |
| LedgerProperties.AggregateFive | app.py:85-103 | a five-row ledger totals the in-order sum of its five contributions |
| LedgerProperties.EndToEndScenario | app.py:80-107 | the household scenario at USD rate 31.5 totals 1445000 / 8000000 / 70000 / 10000/3, with net worth -6555000 and net flow 200000/3 |
| ModelPicker.Contains | app.py:40 | no contract of its own: Python's substring test `sub in s`, as a left-to-right scan; `ModelPicker.ContainsIffOccurs` gives its meaning |
| ModelPicker.Preferred | app.py:40 | no contract of its own: the selection condition `"1.5-pro" in name and "latest" in name`; `ModelPicker.PreferredIffOccurs` gives its meaning |
| ModelPicker.ContainsIffOccurs | app.py:40 | the left-to-right substring scan answers true exactly when the pattern occurs at some offset of the name (Python's `in` on strings) |
| ModelPicker.FirstPreferredFrom | app.py:39-42 | the scan from a start index returns the first preferred index at or after it, with no preferred name skipped, or the list length when there is none |
| ModelPicker.DefaultModelIndex | app.py:38-42 | for a non-empty list the index is in range; it is the first name containing both `1.5-pro` and `latest` when one exists, and 0 otherwise |
| ModelPicker.PreferredIffOccurs | app.py:40 | a name is preferred if and only if both `1.5-pro` and `latest` occur in it as substrings |
| ModelPicker.LatestProIsPreferred | app.py:40 | every name in which both `1.5-pro` and `latest` occur is preferred |
| ModelPicker.ProWithoutLatestIsNotPreferred | app.py:40 | no name in which `latest` does not occur is preferred |
| ModelPicker.DefaultModelIndexFallsBack | app.py:38-42 | for every list in which no name contains both `1.5-pro` and `latest`, index 0 is chosen |
| ModelPicker.LatestProNameExample | app.py:40 | the name `1.5-pro-latest` is preferred |
| ModelPicker.PlainProNamesExample | app.py:40 | the names `1.0-pro` and `1.5-pro` are not preferred |
| ModelPicker.DefaultModelIndexPicksLatestPro | app.py:38-42 | in the list `1.0-pro`, `1.5-pro-latest`, `1.5-flash-latest`, index 1 is chosen: the first `1.5-pro`…`latest` entry, over an earlier plain pro entry and a later `latest` flash entry |
| ModelPicker.DefaultModelIndexFallsBackExample | app.py:38-42 | in the list `1.0-pro`, `1.5-pro`, index 0 is chosen |

## Left out

- Non-numeric amounts are not modelled, because amounts are `real`. `app.py` does not recover from them: a text amount that reaches a multiplication by a rate or an addition to a total makes the whole computation fail. The model does not claim that such rows are skipped.
- A ledger without one of the columns Amount, Currency, Category or Frequency makes app.py:86-91 raise KeyError on its first row, whatever that row's category; Frequency is read for every row, so even a ledger of only Asset and Liability rows fails without it. The model's `Row` always carries all four fields, so this error is not modelled.
- Floating-point behaviour is not modelled. Amounts, rates and totals are exact reals, and division by 3 or 12 is exact. The source's rounding, and NaN amounts or cells that come from the data-frame reader, are out of scope.
- A missing Frequency or Category cell is not modelled as a separate value. It compares unequal to every label, which is the same as any unrecognised text, and that case is modelled.
- The Item column is not modelled: the aggregator never reads it.
- The dashboard is not modelled: the page layout, sidebar, rate inputs, data editor and KPI display (app.py:6-77, 109-121) are presentation.
- The liability ratio `t_liability/t_asset` (app.py:114) is display formatting. It divides by zero when total assets are 0.
- Loading the ledger CSV and handling a missing file (app.py:69-73) are file I/O and are not modelled.
- The text-generation service is not modelled: configuration, model listing, request construction and the call (app.py:26-33, 123-155) are external.
- The API key and secret handling (app.py:14-18) are not modelled.
- An empty model list is not a case the source reaches: it calls the search only when the list is non-empty (app.py:36); the model keeps the initial `default_index = 0` and returns 0 for it.
