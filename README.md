# Personal-finance calculators and blog helpers, modelled in Dafny

This project models the computational core of a personal-finance web site:

- **Take-home pay** (`TakeHomePay`): pay is annualised (×1, ×12 or ×26),
  dollar or percentage pre-tax deductions are subtracted, federal income tax
  comes from the 2024 bracket formulas after the standard deduction, FICA
  has the Social Security cap and Additional Medicare, a simplified child tax
  credit is applied, state tax, local tax, extra withholding and post-tax
  deductions follow, and the result is annual, monthly and biweekly take-home
  pay plus an effective tax rate.
- **Monthly budget** (`Budget`): total expenses, what is left of the income,
  a savings rate clamped at zero, and the chart's expense categories, which
  are pushed one by one in a loop and then sorted in place.
- **50/30/20 split** (`FiftyThirtyTwenty`): needs, wants and savings as
  50%, 30% and 20% of the monthly income.
- **Quote normaliser** (`FixQuotes`): the script's loop that replaces each
  of eight typographic quotation marks by an ASCII quote.
- **Related posts** (`RelatedPosts`, over the records of `BlogPosts`): the
  filter, projection and `slice(0, limit)` that pick related blog posts.
- **HowTo structured data** (`HowToSchema`): the schema.org HowTo JSON-LD
  object built from a post's HowTo block, or null.

Money is exact `real`. JavaScript's `parseFloat` and `parseInt` are
parameters returning `Option` (`None` is NaN), and `x || 0` is `OrZero`.
Optional fields of a post are `Option`s and `s || default` on strings is
`OrDefault`, which also falls back on the empty string. Code the source
writes as a loop over mutable state is a `method` with loop invariants,
proved against a pure function: `FixQuotes.FixQuotes`
against the per-character map `Normalize`, and `Budget.GetExpenseCategories`
against `Collected` and an in-place insertion sort on an `array`.

Where the tax code and the law differ, the model follows the code: the
married table stops at 32%, every non-single filing status uses the married
table, and the Additional Medicare threshold is 200000 for every status.

## Model

| member | source | states |
|---|---|---|
| Common.OrZero | lib/calculations/budget.ts:21 | `parseFloat(s) \|\| 0`: NaN reads as 0, any parsed number as itself |
| Common.IntOrZero | lib/calculations/take-home-pay.ts:223 | `parseInt(s) \|\| 0`: NaN reads as 0, any parsed integer as itself |
| Common.OrDefault | lib/seo/generateHowToSchema.ts:24 | `s \|\| d` on an optional string: a missing or empty string gives the default, any other string itself |
| TakeHomePay.PeriodsPerYear | lib/calculations/take-home-pay.ts:109-113 | a year has 1, 12 or 26 pay periods |
| TakeHomePay.ConvertToAnnual | lib/calculations/take-home-pay.ts:109-113 | yearly is unchanged, monthly ×12, and every other period (biweekly) ×26 |
| TakeHomePay.ConvertToAnnualByPeriods | lib/calculations/take-home-pay.ts:109-113 | annualising is multiplication by the number of periods per year |
| TakeHomePay.ConvertToAnnualLinear | lib/calculations/take-home-pay.ts:109-113 | annualising is additive, and never shrinks a non-negative amount nor grows a non-positive one |
| TakeHomePay.PreTaxDeduction | lib/calculations/take-home-pay.ts:171-202 | percentage mode takes gross·pct/100 (between 0 and gross for a 0–100 percentage); every other mode annualises a per-period dollar amount; unparseable input deducts 0 |
| TakeHomePay.StandardDeduction | lib/calculations/take-home-pay.ts:122 | 14600 exactly for the `single` filing status, 29200 exactly for every other |
| TakeHomePay.FederalTaxableIncome | lib/calculations/take-home-pay.ts:122-123 | income after the standard deduction is never negative, is 0 exactly when income is at or below the deduction, and is income − deduction above it |
| TakeHomePay.BracketTax | lib/calculations/take-home-pay.ts:125-153 | 0 on no income; between 0 and 37% of a non-negative income (32% for married); exactly 10% inside the first band (11600 single, 23200 married) |
| TakeHomePay.CalculateFederalTax | lib/calculations/take-home-pay.ts:118-155 | federal tax is non-negative, 0 at or below the standard deduction and positive above it |
| TakeHomePay.SingleBandFormula | lib/calculations/take-home-pay.ts:125-140 | the single-filer formulas equal 10% of the income in the first band plus 12%, 22%, 24%, 32%, 35% and 37% of the income in the next ones |
| TakeHomePay.MarriedBandFormula | lib/calculations/take-home-pay.ts:141-153 | the married formulas equal 10%, 12%, 22%, 24% and 32% of the income in the successive bands |
| TakeHomePay.SingleBandsCoverIncome | lib/calculations/take-home-pay.ts:125-140 | the single-filer bands split any non-negative income exactly |
| TakeHomePay.MarriedBandsCoverIncome | lib/calculations/take-home-pay.ts:141-153 | the married bands split any non-negative income exactly |
| TakeHomePay.SingleBracketTaxGrowth | lib/calculations/take-home-pay.ts:125-140 | single-filer tax rises by between 0 and 37% of any increase of the income after the deduction |
| TakeHomePay.MarriedBracketTaxGrowth | lib/calculations/take-home-pay.ts:141-153 | married tax rises by between 0 and 32% (its top rate) of any increase of the income after the deduction |
| TakeHomePay.SingleFormulasAreBandSums | lib/calculations/take-home-pay.ts:125-140 | each single-filer formula equals the sum over the bands of rate × income inside the band (1160, 5426, 17168.5, 39110.5, 55678.5, 183647.25 are the full lower bands) |
| TakeHomePay.MarriedFormulasAreBandSums | lib/calculations/take-home-pay.ts:141-153 | each married formula equals the band sum (2320, 10852, 34337, 78221 are the full lower bands), top rate 32% |
| TakeHomePay.FederalTaxIsMarginal | lib/calculations/take-home-pay.ts:118-155 | federal tax equals the marginal-rate sum over the filing status's band table |
| TakeHomePay.BracketTaxGrowth | lib/calculations/take-home-pay.ts:125-153 | the bracket formulas meet at their boundaries: from x to y ≥ x the tax rises by between 0 and 37% of y − x |
| TakeHomePay.FederalTaxMonotoneAndContinuous | lib/calculations/take-home-pay.ts:118-155 | federal tax is non-decreasing in taxable income and rises by at most 37% of any increase, so it has no jumps |
| TakeHomePay.SocialSecurity | lib/calculations/take-home-pay.ts:209-211 | min(taxable·0.062, 10453.2) when included, 0 otherwise, never above 10453.2 |
| TakeHomePay.SocialSecurityCapAtWageBase | lib/calculations/take-home-pay.ts:209-211 | the cap is reached exactly from the 168600 wage base up; below it Social Security is 6.2% of taxable income |
| TakeHomePay.Medicare | lib/calculations/take-home-pay.ts:212 | 1.45% of taxable income when included, 0 otherwise |
| TakeHomePay.AdditionalMedicare | lib/calculations/take-home-pay.ts:213-216 | (taxable − 200000)·0.009 above the threshold when Medicare is included; never negative; positive exactly in that case |
| TakeHomePay.ApplyChildTaxCredit | lib/calculations/take-home-pay.ts:222-225 | tax less 2000 per dependent, floored at 0: equal to the difference when that is non-negative, 0 when the credit covers the tax; never above the tax for non-negative dependents |
| TakeHomePay.StateTaxRate | lib/calculations/take-home-pay.ts:228 | the table's rate for a listed state, 0 for any other string |
| TakeHomePay.StateTax | lib/calculations/take-home-pay.ts:228-229 | taxable income × the table's rate for a listed state, 0 for any other string |
| TakeHomePay.LocalTax | lib/calculations/take-home-pay.ts:230-232 | 0 without local tax, otherwise taxable income × rate/100 with an unparseable rate read as 0 |
| TakeHomePay.EffectiveTaxRate | lib/calculations/take-home-pay.ts:270-271 | 0 without positive gross; otherwise rate × gross = taxes × 100, and the rate lies in 0–100 when taxes lie in 0–gross |
| TakeHomePay.CalculateTakeHomePay | lib/calculations/take-home-pay.ts:160-291 | gross annualised; pre-tax total = the three pre-tax deductions of the annual gross; taxable + pre-tax = gross; federal tax = max(0, bracket tax − 2000·dependents) ≥ 0 and 0 at or below the deduction; Social Security, Medicare and Additional Medicare are those of the taxable income, with their bounds, and FICA is their sum; state tax = taxable × the state's rate and local tax = taxable × the local rate, unknown state and no local tax giving 0; post-tax total = the three annualised post-tax deductions; take-home + taxes + pre-tax + post-tax = gross; monthly ×12 and biweekly ×26 give back the annual figure; effective rate as above |
| TakeHomePay.FederalTaxGrowsSlowly | lib/calculations/take-home-pay.ts:160-225 | with dollar-mode deductions, raising only the gross pay never lowers federal tax and raises it by at most 37% of the extra annual gross |
| Budget.SavingsRate | lib/calculations/budget.ts:27-33 | never negative; 0 without positive income or with negative remaining; otherwise rate × income = remaining × 100; at most 100 when remaining ≤ income |
| Budget.TotalExpenses | lib/calculations/budget.ts:22-25 | 0 when no expense parses; non-negative when every parsed expense is |
| Budget.CalculateBudget | lib/calculations/budget.ts:17-35 | income parsed (NaN as 0); total is the sum of parsed expenses; remaining + total = income exactly, so remaining may be negative; the savings rate is the clamped rate |
| Budget.SavingsRateAtMostHundred | lib/calculations/budget.ts:22-33 | with no negative expense the savings rate is at most 100% |
| Budget.Label | lib/calculations/budget.ts:41-56 | the label for one of the eight known keys, the raw key otherwise |
| Budget.PositiveTotal | lib/calculations/budget.ts:52-60 | the sum of the positive parsed expenses is non-negative |
| Budget.Collected | lib/calculations/budget.ts:52-60 | at most one category per entry, each with a positive value |
| Budget.SortByValueDesc | lib/calculations/budget.ts:62 | sorts the array in place by value, largest first, as a permutation of its contents |
| Budget.InsertDesc | lib/calculations/budget.ts:62 | one insertion step grows the sorted prefix by one element and keeps the array's contents |
| Budget.GetExpenseCategories | lib/calculations/budget.ts:37-63 | sorted by value non-increasing; a permutation of the categories pushed in entry order; a category is returned exactly when some entry parses to a positive value and the category has its label and value; the values sum to the positive expenses' total |
| Budget.CollectedMembers | lib/calculations/budget.ts:52-60 | the loop collects exactly one category per entry whose parsed value is > 0 |
| Budget.CollectedValuesPositive | lib/calculations/budget.ts:52-60 | every collected value is positive and its name is the label of some entry's key, or that key itself when it has no label |
| Budget.SumValuesPermutation | lib/calculations/budget.ts:62 | sorting does not change the total of the category values |
| Budget.CollectedSum | lib/calculations/budget.ts:52-60 | the collected values sum to the positive parsed expenses |
| Budget.TotalVersusPositive | lib/calculations/budget.ts:22-25 | the budget total never exceeds the chart total and equals it exactly when no parsed expense is negative |
| FiftyThirtyTwenty.CalculateFiftyThirtyTwenty | lib/calculations/fifty-thirty-twenty.ts:15-27 | income echoes the parsed input, unparseable input gives all zeros; the shares are in ratio 5:3:2, savings is 20% of income and the three sum to the income; ordered and non-negative for non-negative income |
| FixQuotes.Replace | fix_quotes.py:21 | `str.replace` with a one-character pattern keeps the length and changes exactly the matching characters |
| FixQuotes.Lookup | fix_quotes.py:9-18 | a character the table changes is one of its keys |
| FixQuotes.ReplaceAll | fix_quotes.py:20-21 | the replace loop keeps the length, and a character that is not a key and does not become one is unchanged |
| FixQuotes.FixQuotes | fix_quotes.py:20-21 | the replace loop over the table yields every character mapped through the table |
| FixQuotes.LookupNotKey | fix_quotes.py:9-18 | a character that is not a key is left alone |
| FixQuotes.LookupOfKey | fix_quotes.py:9-18 | a key is mapped to the value of one of its entries |
| FixQuotes.LookupEntry | fix_quotes.py:9-18 | with distinct keys a key maps to its own entry's value |
| FixQuotes.LookupSnoc | fix_quotes.py:20-21 | a later table entry only affects characters no earlier entry had replaced |
| FixQuotes.ReplacementsWellFormed | fix_quotes.py:9-18 | the table has eight entries, distinct keys, and no value that is a key |
| FixQuotes.NormalizeReplacesKeys | fix_quotes.py:9-21 | every occurrence of a key becomes its entry's ASCII quote |
| FixQuotes.NormalizePassesThrough | fix_quotes.py:9-21 | characters that are not keys pass through unchanged and the length is kept |
| FixQuotes.AsciiQuotesAreNotKeys | fix_quotes.py:9-18 | the ASCII `'` and `"` are not keys, so they pass through |
| FixQuotes.AsciiPassesThrough | fix_quotes.py:9-18 | every key is outside ASCII, so an ASCII character is left alone |
| FixQuotes.NormalizeRemovesKeys | fix_quotes.py:20-21 | after the loop no key remains in the text |
| FixQuotes.NormalizeIdempotent | fix_quotes.py:20-21 | running the replacement twice equals running it once |
| FixQuotes.ReplaceAllIsLookup | fix_quotes.py:20-21 | for any table whose values are not keys, the sequence of replaces is the per-character lookup |
| FixQuotes.TableOrderIrrelevant | fix_quotes.py:9-21 | any ordering of the table's entries gives the same text |
| FixQuotes.QuoteMapping | fix_quotes.py:9-18 | U+2018, U+2019, U+201A, U+201B become `'`; U+201C, U+201D, U+201E, U+201F become `"`; everything else is unchanged |
| FixQuotes.ExampleLowAndReversedDoubleQuotes | fix_quotes.py:15-17 | U+201E U+201F becomes `""` |
| FixQuotes.ExampleSentence | fix_quotes.py:10-17 | `He said “Hello’”` becomes `He said "Hello'"` |
| RelatedPosts.IsRelated | lib/blog/getRelatedPosts.ts:11-30 | the filter's early returns as one condition: another slug, visible, a title and a date, and the same category or a shared tag |
| RelatedPosts.Matches | lib/blog/getRelatedPosts.ts:10-47 | never more matches than entries, and every entry when all pass the filter |
| RelatedPosts.SliceEnd | lib/blog/getRelatedPosts.ts:48 | `slice(0, limit)` keeps min(limit, length) items, and for a negative limit all but the last −limit |
| RelatedPosts.GetRelatedPosts | lib/blog/getRelatedPosts.ts:4-49 | a prefix of the matches in collection order; at most `limit` long, and all matches when fewer than `limit`; no post with the current slug, an empty title or an empty date; each shares the category or a tag |
| RelatedPosts.MatchesMembers | lib/blog/getRelatedPosts.ts:10-47 | a post is a match exactly when some collection entry with those fields passes the filter |
| RelatedPosts.MatchesAreRelated | lib/blog/getRelatedPosts.ts:11-30 | every match has another slug, a title and a date, and the same category or a shared tag |
| RelatedPosts.ResultsAreVisible | lib/blog/getRelatedPosts.ts:16 | every returned post comes from an entry that is visible |
| RelatedPosts.NoTagsMeansSameCategory | lib/blog/getRelatedPosts.ts:22-29 | without tags to match, or for a post without tags, only the same category qualifies |
| RelatedPosts.DefaultLimitIsThree | lib/blog/getRelatedPosts.ts:4-48 | with the default limit at most three posts are returned |
| RelatedPosts.PrefixOfSubsequence | lib/blog/getRelatedPosts.ts:48 | a prefix of an order-preserving subsequence is one too |
| RelatedPosts.MatchesSubsequence | lib/blog/getRelatedPosts.ts:10-47 | the matches are an order-preserving subsequence of the collection's posts |
| RelatedPosts.ResultIsOrderedSubsequence | lib/blog/getRelatedPosts.ts:10-48 | the result is an order-preserving subsequence of the collection's posts |
| HowToSchema.NatToDecimal | lib/seo/generateHowToSchema.ts:38 | the step number renders as at least one decimal digit, with no leading zero |
| HowToSchema.DecimalRoundTrip | lib/seo/generateHowToSchema.ts:38 | reading the rendered digits back gives the number |
| HowToSchema.NatToDecimalInjective | lib/seo/generateHowToSchema.ts:38 | different step numbers render differently |
| HowToSchema.HasSteps | lib/seo/generateHowToSchema.ts:13-15 | false exactly when the HowTo block or its step list is missing or the list is empty |
| HowToSchema.PostUrl | lib/seo/generateHowToSchema.ts:17 | the base url, then `/blog/`, then the slug, and nothing else |
| HowToSchema.BuildStep | lib/seo/generateHowToSchema.ts:36-42 | a HowToStep with the step's name and text, its url or the `#step-` anchor, and its image or the featured image or the site logo |
| HowToSchema.BuildSteps | lib/seo/generateHowToSchema.ts:36-42 | one output step per input step, in order, numbered from the start index |
| HowToSchema.Cost | lib/seo/generateHowToSchema.ts:25-35 | a MonetaryAmount; USD and "0" when absent; each given field kept unless empty, when it falls back to USD or "0" |
| HowToSchema.GenerateHowToSchema | lib/seo/generateHowToSchema.ts:9-44 | null exactly when the HowTo block or its step list is missing or the list is empty; otherwise context schema.org, type HowTo, name and description from the post, total time defaulting to PT20M, the cost as above, and step i built from input step i |
| HowToSchema.StepContents | lib/seo/generateHowToSchema.ts:17-42 | output step i copies name and text, uses the step's url or `baseUrl/blog/slug#step-(i+1)`, and the step's image, else the featured image, else `baseUrl/logo-vertical.png` |
| HowToSchema.DefaultAnchorsDistinct | lib/seo/generateHowToSchema.ts:17-38 | two steps that fall back to the default anchor link to different anchors |
| HowToSchema.MinimalHowToDefaults | lib/seo/generateHowToSchema.ts:24-35 | a block with only steps gets PT20M and a USD 0 cost |
| HowToSchema.EmptyCostDefaults | lib/seo/generateHowToSchema.ts:25-30 | a cost block with empty currency and value gets USD and "0" |
| HowToSchema.ExampleFirstAnchor | lib/seo/generateHowToSchema.ts:17-38 | the first step's anchor ends in `#step-1` |
| HowToSchema.ExampleTwelfthAnchor | lib/seo/generateHowToSchema.ts:17-38 | the twelfth step's anchor ends in `#step-12` |

## Left out

- Floating point: amounts are exact reals, so IEEE-754 rounding, NaN arithmetic beyond `|| 0`, and Infinity are not modelled.
- `parseFloat` and `parseInt` are parameters: what they read from a string is not modelled, only the NaN-or-number outcome.
- File reading, writing and the final message of the quote script are I/O and are not modelled; only the in-memory replacement is.
- Lookups of JavaScript object keys such as `constructor` in the state-rate and label tables, which would hit the prototype chain, are not modelled: a key is either in the table or not.
- TakeHomePay.CalculateTakeHomePay: the "federal tax is 0 at or below the standard deduction" clause is stated only for a non-negative parsed dependent count, because a negative count makes the credit add tax.
- Budget.SortByValueDesc: stability is left unstated: the source's sort (ECMAScript 2019 and later) keeps equal values in entry order and the model's insertion sort, which moves an element only past strictly smaller ones, does too, but the contract states only the order and the permutation.
- The expense record is modelled as the sequence of its entries in iteration order; JavaScript's ordering of integer-like keys first is not modelled.
- The post collection is a parameter; building it (file system, front-matter parsing, MDX compilation, the date-based visibility flag) is not part of this model, and a collection entry keeps only the post fields and the visibility flag.
- RelatedPosts.GetRelatedPosts: the limit is an integer; a fractional or NaN limit, which `slice` would truncate or read as 0, is not modelled (every caller in the repository passes 3).
- The HowTo step url and image accept any non-empty string; no URL syntax is checked, as in the source.
