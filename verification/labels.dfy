/**
  The fixed label vocabulary of the ledger.

  Every ledger cell that steers the aggregation (category, currency,
  frequency) arrives as free text. The aggregator compares it against a
  handful of exact English strings; anything else falls into an `Other…`
  case that keeps the original text, so classifying and printing a label
  is a lossless round trip.
 */
module Labels {

  /** The category column. Only the four exact English labels are recognised. */
  datatype Category = Asset | Liability | Income | Expense | OtherCategory(text: string)

  /** The currency column. TWD is not special: it is one of the "other" codes, left unconverted. */
  datatype Currency = USD | THB | OtherCurrency(code: string)

  /** The frequency column, consulted only for Income and Expense rows. */
  datatype Frequency = Monthly | Quarterly | Yearly | OtherFrequency(text: string)

  function ParseCategory(s: string): (c: Category)
    ensures c == Asset <==> s == "Asset"
    ensures c == Liability <==> s == "Liability"
    ensures c == Income <==> s == "Income"
    ensures c == Expense <==> s == "Expense"
    ensures c.OtherCategory? ==> c.text == s
  {
    if s == "Asset" then Asset
    else if s == "Liability" then Liability
    else if s == "Income" then Income
    else if s == "Expense" then Expense
    else OtherCategory(s)
  }

  function CategoryLabel(c: Category): string
  {
    match c
    case Asset => "Asset"
    case Liability => "Liability"
    case Income => "Income"
    case Expense => "Expense"
    case OtherCategory(l) => l
  }

  /** An `OtherCategory` is canonical only when its text is not one of the recognised labels. */
  predicate CanonicalCategory(c: Category)
  {
    c.OtherCategory? ==> c.text !in {"Asset", "Liability", "Income", "Expense"}
  }

  function ParseCurrency(s: string): (c: Currency)
    ensures c == USD <==> s == "USD"
    ensures c == THB <==> s == "THB"
    ensures c.OtherCurrency? ==> c.code == s
  {
    if s == "USD" then USD
    else if s == "THB" then THB
    else OtherCurrency(s)
  }

  function CurrencyLabel(c: Currency): string
  {
    match c
    case USD => "USD"
    case THB => "THB"
    case OtherCurrency(code) => code
  }

  predicate CanonicalCurrency(c: Currency)
  {
    c.OtherCurrency? ==> c.code !in {"USD", "THB"}
  }

  function ParseFrequency(s: string): (f: Frequency)
    ensures f == Monthly <==> s == "Monthly"
    ensures f == Quarterly <==> s == "Quarterly"
    ensures f == Yearly <==> s == "Yearly"
    ensures f.OtherFrequency? ==> f.text == s
  {
    if s == "Monthly" then Monthly
    else if s == "Quarterly" then Quarterly
    else if s == "Yearly" then Yearly
    else OtherFrequency(s)
  }

  function FrequencyLabel(f: Frequency): string
  {
    match f
    case Monthly => "Monthly"
    case Quarterly => "Quarterly"
    case Yearly => "Yearly"
    case OtherFrequency(l) => l
  }

  predicate CanonicalFrequency(f: Frequency)
  {
    f.OtherFrequency? ==> f.text !in {"Monthly", "Quarterly", "Yearly"}
  }

  /** Number of months in one period of a recognised frequency: the divisor that
      turns an amount per period into a monthly-equivalent amount. */
  function MonthsPerPeriod(f: Frequency): (m: real)
    requires !f.OtherFrequency?
    ensures m == 1.0 <==> f == Monthly
    ensures m == 3.0 <==> f == Quarterly
    ensures m == 12.0 <==> f == Yearly
  {
    match f
    case Monthly => 1.0
    case Quarterly => 3.0
    case Yearly => 12.0
  }

  /** Classifying a label and printing it back gives the original text, for every string. */
  lemma CategoryTextRoundTrip(s: string)
    ensures CategoryLabel(ParseCategory(s)) == s
  {
  }

  /** Printing a canonical category and classifying the text gives the category back. */
  lemma CategoryValueRoundTrip(c: Category)
    requires CanonicalCategory(c)
    ensures ParseCategory(CategoryLabel(c)) == c
  {
  }

  /** Classification always yields a canonical value. */
  lemma ParseCategoryCanonical(s: string)
    ensures CanonicalCategory(ParseCategory(s))
  {
  }

  lemma CurrencyTextRoundTrip(s: string)
    ensures CurrencyLabel(ParseCurrency(s)) == s
  {
  }

  lemma CurrencyValueRoundTrip(c: Currency)
    requires CanonicalCurrency(c)
    ensures ParseCurrency(CurrencyLabel(c)) == c
  {
  }

  lemma FrequencyTextRoundTrip(s: string)
    ensures FrequencyLabel(ParseFrequency(s)) == s
  {
  }

  lemma FrequencyValueRoundTrip(f: Frequency)
    requires CanonicalFrequency(f)
    ensures ParseFrequency(FrequencyLabel(f)) == f
  {
  }

  /** The localised labels 資產, 負債, 收入, 支出 and 每月, 每季, 每年 are not aliases:
      they classify as unrecognised text. */
  lemma LocalisedLabelsAreNotRecognised()
    ensures ParseCategory("資產") == OtherCategory("資產")
    ensures ParseCategory("負債") == OtherCategory("負債")
    ensures ParseCategory("收入") == OtherCategory("收入")
    ensures ParseCategory("支出") == OtherCategory("支出")
    ensures ParseFrequency("每月") == OtherFrequency("每月")
    ensures ParseFrequency("每季") == OtherFrequency("每季")
    ensures ParseFrequency("每年") == OtherFrequency("每年")
    ensures ParseCurrency("usd") == OtherCurrency("usd")
  {
  }
}
