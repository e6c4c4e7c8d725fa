/** Monthly-budget maths: totals, what is left of the income, a savings rate
    clamped at zero, and the list of expense categories for the chart. An
    expense record is the sequence of its entries in iteration order. */
module Budget {
  import opened Common

  /** One `[key, value]` pair of the expenses record; the value is the text
      typed into the form. */
  datatype Entry = Entry(key: string, value: string)

  datatype BudgetResults = BudgetResults(
    income: real,
    totalExpenses: real,
    remaining: real,
    savingsRate: real
  )

  datatype ExpenseCategory = ExpenseCategory(name: string, value: real)

  function Parsed(parseFloat: FloatParser, e: Entry): real {
    OrZero(parseFloat(e.value))
  }

  // ---------------------------------------------------------------------------
  // calculateBudget

  /** The `reduce` over the record's values: a left-to-right sum in which an
      unparseable value counts as 0. */
  function TotalExpenses(parseFloat: FloatParser, expenses: seq<Entry>): (total: real)
    // unparseable entries add nothing, so with none entered the total is 0
    ensures (forall i :: 0 <= i < |expenses| ==> parseFloat(expenses[i].value).None?) ==> total == 0.0
    ensures (forall i :: 0 <= i < |expenses| ==> Parsed(parseFloat, expenses[i]) >= 0.0) ==> total >= 0.0
    decreases |expenses|
  {
    if expenses == [] then 0.0
    else TotalExpenses(parseFloat, expenses[..|expenses| - 1]) + Parsed(parseFloat, expenses[|expenses| - 1])
  }

  /** `max(0, remaining / income * 100)`, and 0 when there is no income. */
  function SavingsRate(remaining: real, income: real): (rate: real)
    ensures rate >= 0.0
    ensures income <= 0.0 || remaining <= 0.0 ==> rate == 0.0
    ensures income > 0.0 && remaining >= 0.0 ==> rate * income == remaining * 100.0
    ensures income > 0.0 && remaining <= income ==> rate <= 100.0
  {
    var rate := if income > 0.0 then (remaining / income) * 100.0 else 0.0;
    Max(0.0, rate)
  }

  function CalculateBudget(parseFloat: FloatParser, income: string, expenses: seq<Entry>): (r: BudgetResults)
    ensures r.income == OrZero(parseFloat(income))
    ensures r.totalExpenses == TotalExpenses(parseFloat, expenses)
    ensures r.remaining + r.totalExpenses == r.income
    ensures r.savingsRate >= 0.0
    ensures r.income <= 0.0 ==> r.savingsRate == 0.0
    ensures r.remaining < 0.0 ==> r.savingsRate == 0.0
    ensures r.savingsRate == SavingsRate(r.remaining, r.income)
  {
    var totalIncome := OrZero(parseFloat(income));
    var totalExpenses := TotalExpenses(parseFloat, expenses);
    var remaining := totalIncome - totalExpenses;
    BudgetResults(totalIncome, totalExpenses, remaining, SavingsRate(remaining, totalIncome))
  }

  /** With no negative expense entered, the savings rate is at most 100%. */
  lemma SavingsRateAtMostHundred(parseFloat: FloatParser, income: string, expenses: seq<Entry>)
    requires forall i :: 0 <= i < |expenses| ==> Parsed(parseFloat, expenses[i]) >= 0.0
    ensures CalculateBudget(parseFloat, income, expenses).savingsRate <= 100.0
  {
    TotalVersusPositive(parseFloat, expenses);
  }

  // ---------------------------------------------------------------------------
  // getExpenseCategories

  /** Display names for the known expense keys. */
  const CategoryLabels: map<string, string> := map[
    "housing" := "Housing",
    "utilities" := "Utilities",
    "transportation" := "Transportation",
    "food" := "Food",
    "insurance" := "Insurance",
    "debt" := "Debt",
    "subscriptions" := "Subscriptions",
    "miscellaneous" := "Miscellaneous"
  ]

  /** `categoryLabels[key] || key`. */
  function Label(key: string): (name: string)
    ensures key in CategoryLabels ==> name == CategoryLabels[key]
    ensures key !in CategoryLabels ==> name == key
  {
    if key in CategoryLabels then CategoryLabels[key] else key
  }

  function Category(parseFloat: FloatParser, e: Entry): ExpenseCategory {
    ExpenseCategory(Label(e.key), Parsed(parseFloat, e))
  }

  /** The categories pushed by the `forEach`, in entry order: one per entry
      whose parsed value is positive. */
  function Collected(parseFloat: FloatParser, expenses: seq<Entry>): (collected: seq<ExpenseCategory>)
    ensures |collected| <= |expenses|
    ensures forall k :: 0 <= k < |collected| ==> collected[k].value > 0.0
    decreases |expenses|
  {
    if expenses == [] then []
    else
      var last := expenses[|expenses| - 1];
      Collected(parseFloat, expenses[..|expenses| - 1])
      + (if Parsed(parseFloat, last) > 0.0 then [Category(parseFloat, last)] else [])
  }

  predicate SortedByValueDesc(s: seq<ExpenseCategory>) {
    forall p, q :: 0 <= p < q < |s| ==> s[p].value >= s[q].value
  }

  function SumValues(s: seq<ExpenseCategory>): real
    decreases |s|
  {
    if s == [] then 0.0 else s[0].value + SumValues(s[1..])
  }

  /** The sum of the positive parsed expenses. */
  function PositiveTotal(parseFloat: FloatParser, expenses: seq<Entry>): (total: real)
    ensures total >= 0.0
    decreases |expenses|
  {
    if expenses == [] then 0.0
    else
      var v := Parsed(parseFloat, expenses[|expenses| - 1]);
      PositiveTotal(parseFloat, expenses[..|expenses| - 1]) + (if v > 0.0 then v else 0.0)
  }

  /** `categories.sort((a, b) => b.value - a.value)`: sorts in place by value,
      largest first. */
  method SortByValueDesc(a: array<ExpenseCategory>)
    modifies a
    ensures SortedByValueDesc(a[..])
    ensures multiset(a[..]) == old(multiset(a[..]))
  {
    var i := 0;
    while i < a.Length
      invariant 0 <= i <= a.Length
      invariant SortedByValueDesc(a[..i])
      invariant multiset(a[..]) == old(multiset(a[..]))
    {
      InsertDesc(a, i);
      i := i + 1;
    }
    assert a[..a.Length] == a[..];
  }

  /** One insertion step: moves `a[i]` left past the smaller values, so that
      the sorted prefix grows by one. */
  method InsertDesc(a: array<ExpenseCategory>, i: nat)
    requires i < a.Length && SortedByValueDesc(a[..i])
    modifies a
    ensures SortedByValueDesc(a[..i + 1])
    ensures multiset(a[..]) == old(multiset(a[..]))
  {
    var j := i;
    while j > 0 && a[j - 1].value < a[j].value
      invariant 0 <= j <= i
      invariant forall p, q :: 0 <= p < q <= i && p != j && q != j ==> a[p].value >= a[q].value
      invariant forall q :: j < q <= i ==> a[j].value > a[q].value
      invariant multiset(a[..]) == old(multiset(a[..]))
    {
      Swap(a, j - 1, j);
      j := j - 1;
    }
  }

  method Swap(a: array<ExpenseCategory>, p: nat, q: nat)
    requires p < a.Length && q < a.Length
    modifies a
    ensures a[..] == old(a[..])[p := old(a[q])][q := old(a[p])]
    ensures multiset(a[..]) == old(multiset(a[..]))
  {
    a[p], a[q] := a[q], a[p];
  }

  method GetExpenseCategories(parseFloat: FloatParser, expenses: seq<Entry>)
    returns (categories: seq<ExpenseCategory>)
    ensures SortedByValueDesc(categories)
    ensures multiset(categories) == multiset(Collected(parseFloat, expenses))
    ensures forall c :: c in categories <==>
              exists i :: 0 <= i < |expenses| && Parsed(parseFloat, expenses[i]) > 0.0
                          && c == Category(parseFloat, expenses[i])
    ensures SumValues(categories) == PositiveTotal(parseFloat, expenses)
  {
    var collected: seq<ExpenseCategory> := [];
    var i := 0;
    while i < |expenses|
      invariant 0 <= i <= |expenses|
      invariant collected == Collected(parseFloat, expenses[..i])
    {
      assert expenses[..i + 1][..i] == expenses[..i];
      var numValue := OrZero(parseFloat(expenses[i].value));
      if numValue > 0.0 {
        collected := collected + [ExpenseCategory(Label(expenses[i].key), numValue)];
      }
      i := i + 1;
    }
    assert expenses[..i] == expenses;

    var a := new ExpenseCategory[|collected|](k requires 0 <= k < |collected| => collected[k]);
    assert a[..] == collected;
    SortByValueDesc(a);
    categories := a[..];

    forall c
      ensures c in categories <==>
              exists i :: 0 <= i < |expenses| && Parsed(parseFloat, expenses[i]) > 0.0
                          && c == Category(parseFloat, expenses[i])
    {
      assert c in categories <==> c in multiset(categories);
      assert c in collected <==> c in multiset(collected);
      CollectedMembers(parseFloat, expenses, c);
    }
    SumValuesPermutation(categories, collected);
    CollectedSum(parseFloat, expenses);
  }

  // ---------------------------------------------------------------------------
  // Lemmas

  /** A category is collected exactly when some entry parses to a positive
      value and the category carries that entry's label and value. */
  lemma {:induction false} CollectedMembers(parseFloat: FloatParser, expenses: seq<Entry>, c: ExpenseCategory)
    ensures c in Collected(parseFloat, expenses) <==>
            exists i :: 0 <= i < |expenses| && Parsed(parseFloat, expenses[i]) > 0.0
                        && c == Category(parseFloat, expenses[i])
    decreases |expenses|
  {
    if expenses != [] {
      var n := |expenses| - 1;
      var init := expenses[..n];
      CollectedMembers(parseFloat, init, c);
      var fromLast := Parsed(parseFloat, expenses[n]) > 0.0 && c == Category(parseFloat, expenses[n]);
      assert c in Collected(parseFloat, expenses) <==> c in Collected(parseFloat, init) || fromLast;
      if c in Collected(parseFloat, init) {
        var i :| 0 <= i < |init| && Parsed(parseFloat, init[i]) > 0.0 && c == Category(parseFloat, init[i]);
        assert expenses[i] == init[i];
      } else if !fromLast {
        forall i | 0 <= i < |expenses|
          ensures !(Parsed(parseFloat, expenses[i]) > 0.0 && c == Category(parseFloat, expenses[i]))
        {
          if i < n {
            assert init[i] == expenses[i];
          }
        }
      }
    }
  }

  /** Every collected value is positive, and its name is the label of the
      entry's key or, for an unknown key, the key itself. */
  lemma CollectedValuesPositive(parseFloat: FloatParser, expenses: seq<Entry>, c: ExpenseCategory)
    requires c in Collected(parseFloat, expenses)
    ensures c.value > 0.0
    ensures exists i :: 0 <= i < |expenses| &&
              ((expenses[i].key in CategoryLabels && c.name == CategoryLabels[expenses[i].key])
               || (expenses[i].key !in CategoryLabels && c.name == expenses[i].key))
  {
    CollectedMembers(parseFloat, expenses, c);
  }

  lemma {:induction false} SumValuesConcat(s: seq<ExpenseCategory>, t: seq<ExpenseCategory>)
    ensures SumValues(s + t) == SumValues(s) + SumValues(t)
    decreases |s|
  {
    if s == [] {
      assert s + t == t;
    } else {
      assert (s + t)[1..] == s[1..] + t;
      SumValuesConcat(s[1..], t);
    }
  }

  /** Reordering categories does not change their total. */
  lemma {:induction false} SumValuesPermutation(s: seq<ExpenseCategory>, t: seq<ExpenseCategory>)
    requires multiset(s) == multiset(t)
    ensures SumValues(s) == SumValues(t)
    decreases |s|
  {
    if s == [] {
      assert |t| == |multiset(t)| == 0;
    } else {
      assert s[0] in multiset(t);
      var k :| 0 <= k < |t| && t[k] == s[0];
      var rest := t[..k] + t[k + 1..];
      RemoveFromMultiset(s, t, k);
      SumValuesPermutation(s[1..], rest);
      SumValuesRemove(t, k);
    }
  }

  /** Taking the same element out of two equal multisets leaves equal ones. */
  lemma RemoveFromMultiset(s: seq<ExpenseCategory>, t: seq<ExpenseCategory>, k: nat)
    requires s != [] && k < |t| && t[k] == s[0] && multiset(s) == multiset(t)
    ensures multiset(s[1..]) == multiset(t[..k] + t[k + 1..])
  {
    assert s == [s[0]] + s[1..];
    assert t == t[..k] + [t[k]] + t[k + 1..];
    calc {
      multiset(s[1..]);
      multiset(s) - multiset{s[0]};
      multiset(t) - multiset{t[k]};
      multiset(t[..k]) + multiset(t[k + 1..]);
      multiset(t[..k] + t[k + 1..]);
    }
  }

  /** The total is one element's value plus the total of the others. */
  lemma SumValuesRemove(t: seq<ExpenseCategory>, k: nat)
    requires k < |t|
    ensures SumValues(t) == t[k].value + SumValues(t[..k] + t[k + 1..])
  {
    SumValuesConcat(t[..k], [t[k]] + t[k + 1..]);
    SumValuesConcat(t[..k], t[k + 1..]);
    assert ([t[k]] + t[k + 1..])[1..] == t[k + 1..];
    assert t[..k] + ([t[k]] + t[k + 1..]) == t;
  }

  /** The collected values sum to the sum of the positive parsed expenses. */
  lemma {:induction false} CollectedSum(parseFloat: FloatParser, expenses: seq<Entry>)
    ensures SumValues(Collected(parseFloat, expenses)) == PositiveTotal(parseFloat, expenses)
    decreases |expenses|
  {
    if expenses != [] {
      var n := |expenses| - 1;
      CollectedSum(parseFloat, expenses[..n]);
      var tail := if Parsed(parseFloat, expenses[n]) > 0.0 then [Category(parseFloat, expenses[n])] else [];
      SumValuesConcat(Collected(parseFloat, expenses[..n]), tail);
    }
  }

  /** The budget total counts negative entries too, so it never exceeds the
      chart's total, and equals it exactly when no entry is negative. */
  lemma {:induction false} TotalVersusPositive(parseFloat: FloatParser, expenses: seq<Entry>)
    ensures TotalExpenses(parseFloat, expenses) <= PositiveTotal(parseFloat, expenses)
    ensures TotalExpenses(parseFloat, expenses) == PositiveTotal(parseFloat, expenses)
            <==> forall i :: 0 <= i < |expenses| ==> Parsed(parseFloat, expenses[i]) >= 0.0
    decreases |expenses|
  {
    if expenses != [] {
      var n := |expenses| - 1;
      var init := expenses[..n];
      TotalVersusPositive(parseFloat, init);
      if forall i :: 0 <= i < |expenses| ==> Parsed(parseFloat, expenses[i]) >= 0.0 {
        assert forall i :: 0 <= i < |init| ==> Parsed(parseFloat, init[i]) >= 0.0 by {
          forall i | 0 <= i < |init| ensures Parsed(parseFloat, init[i]) >= 0.0 {
            assert init[i] == expenses[i];
          }
        }
      } else {
        var i :| 0 <= i < |expenses| && Parsed(parseFloat, expenses[i]) < 0.0;
        if i < n {
          assert init[i] == expenses[i];
        }
      }
    }
  }
}
