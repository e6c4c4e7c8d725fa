/** The 50/30/20 rule: half of the monthly income for needs, 30% for wants
    and 20% for savings. */
module FiftyThirtyTwenty {
  import opened Common

  datatype FiftyThirtyTwentyResults = FiftyThirtyTwentyResults(
    income: real,
    needs: real,
    wants: real,
    savings: real
  )

  function CalculateFiftyThirtyTwenty(parseFloat: FloatParser, monthlyIncome: string)
    : (r: FiftyThirtyTwentyResults)
    // the income field echoes the parsed input; unparseable input reads as 0
    ensures r.income == OrZero(parseFloat(monthlyIncome))
    ensures parseFloat(monthlyIncome).None? ==> r == FiftyThirtyTwentyResults(0.0, 0.0, 0.0, 0.0)
    // the three shares are in the ratio 5 : 3 : 2 and use up the income exactly
    ensures r.needs + r.wants + r.savings == r.income
    ensures 2.0 * r.needs == 5.0 * r.savings && 2.0 * r.wants == 3.0 * r.savings
    ensures 10.0 * r.savings == 2.0 * r.income
    // for a non-negative income the shares are ordered and non-negative
    ensures r.income >= 0.0 ==> r.needs >= r.wants >= r.savings >= 0.0
    ensures r.income < 0.0 ==> r.needs < r.wants < r.savings < 0.0
  {
    var income := OrZero(parseFloat(monthlyIncome));
    FiftyThirtyTwentyResults(income, income * 0.5, income * 0.3, income * 0.2)
  }
}
