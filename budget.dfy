/** The expense record, the sum of amounts, and the totals CalculateBudget shows in the window. */
module Budget {
  import opened Wrappers
  import opened Text
  import opened DecimalParse

  /** One entry of the Expenses collection: the raw name text and the parsed amount.
      Entries are told apart by position, never by value. */
  datatype Expense = Expense(name: string, amount: real)

  /** The two foregrounds the balance is drawn in. */
  datatype Colour = Green | Red

  /** What the window shows after a successful recalculation. */
  datatype Totals = Totals(totalExpenses: real, remaining: real, colour: Colour)

  /** decimal.Parse threw on a non-blank income text. */
  datatype CalcError = InvalidIncome

  /** Expenses.Sum(x => x.Amount), front to back. */
  function Sum(expenses: seq<Expense>): real
  {
    if expenses == [] then 0.0 else expenses[0].amount + Sum(expenses[1..])
  }

  lemma {:induction false} SumConcat(a: seq<Expense>, b: seq<Expense>)
    ensures Sum(a + b) == Sum(a) + Sum(b)
  {
    if a == [] {
      assert a + b == b;
    } else {
      assert (a + b)[1..] == a[1..] + b;
      SumConcat(a[1..], b);
    }
  }

  /** Appending one entry adds exactly its amount to the total. */
  lemma {:induction false} SumAppend(expenses: seq<Expense>, e: Expense)
    ensures Sum(expenses + [e]) == Sum(expenses) + e.amount
  {
    SumConcat(expenses, [e]);
    assert [e][1..] == [];
  }

  /** Deleting the entry at i takes exactly its amount off the total. */
  lemma {:induction false} SumRemoveAt(expenses: seq<Expense>, i: nat)
    requires i < |expenses|
    ensures Sum(expenses[..i] + expenses[i + 1..]) == Sum(expenses) - expenses[i].amount
  {
    assert expenses == expenses[..i] + ([expenses[i]] + expenses[i + 1..]);
    SumConcat(expenses[..i], [expenses[i]] + expenses[i + 1..]);
    SumConcat([expenses[i]], expenses[i + 1..]);
    SumConcat(expenses[..i], expenses[i + 1..]);
    assert [expenses[i]][1..] == [];
  }

  /** CalculateBudget: blank income counts as 0, other income goes through decimal.Parse
      (an exception, caught, when it does not parse); remaining is income minus the sum
      and is drawn red when negative, green otherwise. The parser is the parameter
      `tryParse` (None where decimal.Parse throws a FormatException). */
  function CalculateBudget(incomeText: string, expenses: seq<Expense>, tryParse: string -> Option<real>)
    : (r: Result<Totals, CalcError>)
    ensures r.Ok? <==> IsBlank(incomeText) || tryParse(incomeText).Some?
    ensures r.Ok? ==> r.value.totalExpenses == Sum(expenses)
    ensures r.Ok? ==> (r.value.colour == Green <==> r.value.remaining >= 0.0)
    ensures r.Ok? && IsBlank(incomeText) ==> r.value.remaining == -Sum(expenses)
    ensures r.Ok? && !IsBlank(incomeText) ==> r.value.remaining == tryParse(incomeText).value - Sum(expenses)
  {
    var income: Option<real> := if IsBlank(incomeText) then Some(0.0) else tryParse(incomeText);
    match income
    case None => Err(InvalidIncome)
    case Some(v) =>
      var totalExpenses := Sum(expenses);
      var remaining := v - totalExpenses;
      Ok(Totals(totalExpenses, remaining, if remaining < 0.0 then Red else Green))
  }

  /** With income that parses, remaining is that income minus the sum. */
  lemma CalculateBudgetParsed(incomeText: string, expenses: seq<Expense>, tryParse: string -> Option<real>, income: real)
    requires RejectsBlank(tryParse)
    requires tryParse(incomeText) == Some(income)
    ensures CalculateBudget(incomeText, expenses, tryParse) == Ok(Totals(Sum(expenses), income - Sum(expenses),
                                                                 if income - Sum(expenses) < 0.0 then Red else Green))
  {
    assert !IsBlank(incomeText);
  }
}
