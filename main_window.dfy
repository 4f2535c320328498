/** The ledger state of the main window: the Expenses collection, and the totals the
    window last displayed. The text boxes are parameters of the handlers; dialogs are
    error results. Number parsing (decimal.TryParse and decimal.Parse) is the parameter
    `tryParse`; DecimalParse.ParseDecimal is one parser that fits it. */
module MainWindow {
  import opened Wrappers
  import opened Text
  import opened DecimalParse
  import opened Budget
  import PdfExport

  /** The warnings AddExpense_Click and RemoveExpense_Click show. */
  datatype LedgerError = EmptyField | InvalidAmount | NoSelection

  /** What the window displays after CalculateBudget gave `outcome`: the new
      totals, or, when decimal.Parse threw, what it displayed before. */
  function Displayed(before: Option<Totals>, outcome: Result<Totals, CalcError>): (shown: Option<Totals>)
    ensures outcome.Ok? ==> shown == Some(outcome.value)
    ensures outcome.Err? ==> shown == before
  {
    match outcome
    case Ok(t) => Some(t)
    case Err(_) => before
  }

  class Ledger {
    /** The Expenses collection, in display order. */
    var expenses: seq<Expense>
    /** The totals and colour last written to TotalExpensesText and RemainingText. */
    var shown: Option<Totals>

    /** Every entry was added through AddExpense_Click, so no name is blank. */
    ghost predicate Valid()
      reads this
    {
      forall i :: 0 <= i < |expenses| ==> !IsBlank(expenses[i].name)
    }

    constructor ()
      ensures Valid() && expenses == [] && shown == None
    {
      expenses := [];
      shown := None;
    }

    /** CalculateBudget, with the income text box contents. */
    method Recalculate(incomeText: string, tryParse: string -> Option<real>)
      returns (outcome: Result<Totals, CalcError>)
      modifies this`shown
      ensures outcome == CalculateBudget(incomeText, expenses, tryParse)
      ensures shown == Displayed(old(shown), outcome)
    {
      outcome := CalculateBudget(incomeText, expenses, tryParse);
      shown := Displayed(shown, outcome);
    }

    /** AddExpense_Click: blank fields are refused, then an amount TryParse rejects; otherwise
        one entry with the raw name and the parsed amount goes at the end and the totals are
        recalculated. */
    method AddExpense(nameText: string, amountText: string, incomeText: string, tryParse: string -> Option<real>)
      returns (r: Result<Expense, LedgerError>)
      requires Valid()
      modifies this
      ensures Valid()
      ensures IsBlank(nameText) || IsBlank(amountText) ==>
        r == Err(EmptyField) && expenses == old(expenses) && shown == old(shown)
      ensures !IsBlank(nameText) && !IsBlank(amountText) && tryParse(amountText).None? ==>
        r == Err(InvalidAmount) && expenses == old(expenses) && shown == old(shown)
      ensures !IsBlank(nameText) && !IsBlank(amountText) && tryParse(amountText).Some? ==>
        && r == Ok(Expense(nameText, tryParse(amountText).value))
        && expenses == old(expenses) + [r.value]
        && Sum(expenses) == old(Sum(expenses)) + r.value.amount
        && shown == Displayed(old(shown), CalculateBudget(incomeText, expenses, tryParse))
    {
      if IsBlank(nameText) || IsBlank(amountText) {
        return Err(EmptyField);
      }
      match tryParse(amountText) {
        case Some(amount) =>
          var e := Expense(nameText, amount);
          SumAppend(expenses, e);
          expenses := expenses + [e];
          var _ := Recalculate(incomeText, tryParse);
          r := Ok(e);
        case None =>
          r := Err(InvalidAmount);
      }
    }

    /** RemoveExpense_Click: with no selection nothing changes; otherwise the selected entry,
        and only that one, is removed, the rest keep their order, and the totals are
        recalculated. The selection is an index into the collection. */
    method RemoveExpense(selected: Option<nat>, incomeText: string, tryParse: string -> Option<real>)
      returns (r: Result<Expense, LedgerError>)
      requires Valid()
      requires selected.Some? ==> selected.value < |expenses|
      modifies this
      ensures Valid()
      ensures selected.None? ==> r == Err(NoSelection) && expenses == old(expenses) && shown == old(shown)
      ensures selected.Some? ==>
        var i := selected.value;
        && r == Ok(old(expenses)[i])
        && expenses == old(expenses)[..i] + old(expenses)[i + 1..]
        && Sum(expenses) == old(Sum(expenses)) - r.value.amount
        && shown == Displayed(old(shown), CalculateBudget(incomeText, expenses, tryParse))
    {
      match selected {
        case None =>
          r := Err(NoSelection);
        case Some(i) =>
          var e := expenses[i];
          SumRemoveAt(expenses, i);
          expenses := expenses[..i] + expenses[i + 1..];
          var _ := Recalculate(incomeText, tryParse);
          r := Ok(e);
      }
    }
  }

  /** After a recalculation with blank or parsable income, the window shows the sum of
      the current amounts, income (0 when blank) minus that sum, and green exactly when the
      balance is not negative. */
  lemma DisplayedTotals(before: Option<Totals>, incomeText: string, expenses: seq<Expense>,
                        tryParse: string -> Option<real>)
    requires RejectsBlank(tryParse)
    requires IsBlank(incomeText) || tryParse(incomeText).Some?
    ensures var shown := Displayed(before, CalculateBudget(incomeText, expenses, tryParse));
      && shown.Some?
      && shown.value.totalExpenses == Sum(expenses)
      && shown.value.remaining
         == (if IsBlank(incomeText) then 0.0 else tryParse(incomeText).value) - Sum(expenses)
      && (shown.value.colour == Green <==> shown.value.remaining >= 0.0)
  {
    if !IsBlank(incomeText) {
      CalculateBudgetParsed(incomeText, expenses, tryParse, tryParse(incomeText).value);
    }
  }

  /** A removal keeps every other entry, in the same relative order: the entries before
      the selection stay where they were and the ones after move up by one. */
  lemma RemovalKeepsOrder(expenses: seq<Expense>, i: nat)
    requires i < |expenses|
    ensures var rest := expenses[..i] + expenses[i + 1..];
      && |rest| == |expenses| - 1
      && (forall k :: 0 <= k < i ==> rest[k] == expenses[k])
      && (forall k :: i <= k < |rest| ==> rest[k] == expenses[k + 1])
  {
  }

  /** The text boxes of the scenarios below, read by a parser. */
  predicate ReadsScenario(tryParse: string -> Option<real>)
  {
    && tryParse("500") == Some(500.0)
    && tryParse("150.50") == Some(150.5)
    && tryParse("1000") == Some(1000.0)
    && tryParse("200") == Some(200.0)
  }

  /** The decimal grammar reads the scenarios' amounts and incomes as intended. */
  lemma ParseDecimalReadsScenario()
    ensures ReadsScenario(ParseDecimal)
    ensures RejectsBlank(ParseDecimal)
  {
    ParseDecimalRejectsBlank();
    ParsesRent();
    ParsesFood();
    ParsesIncome();
    ParsesSmallIncome();
  }

  lemma ParsesRent()
    ensures ParseDecimal("500") == Some(500.0)
  {
    assert "5"[..0] == "" && "50"[..1] == "5" && "500"[..2] == "50";
    assert DigitsValue("5") == 5;
    assert DigitsValue("50") == 50;
    assert DigitsValue("500") == 500;
    ParseDigits("500");
  }

  lemma ParsesFood()
    ensures ParseDecimal("150.50") == Some(150.5)
  {
    assert "5"[..0] == "" && "50"[..1] == "5";
    assert DigitsValue("50") == 50;
    assert "1"[..0] == "" && "15"[..1] == "1" && "150"[..2] == "15";
    assert DigitsValue("15") == 15;
    assert DigitsValue("150") == 150;
    assert Pow10(2) == 100;
    assert FixedPoint("150", "50") == 150.5;
    ParseFixedPoint("150", "50");
    assert "150" + "." + "50" == "150.50";
  }

  lemma ParsesIncome()
    ensures ParseDecimal("1000") == Some(1000.0)
  {
    assert "1"[..0] == "" && "10"[..1] == "1" && "100"[..2] == "10" && "1000"[..3] == "100";
    assert DigitsValue("1") == 1;
    assert DigitsValue("10") == 10;
    assert DigitsValue("100") == 100;
    assert DigitsValue("1000") == 1000;
    ParseDigits("1000");
  }

  lemma ParsesSmallIncome()
    ensures ParseDecimal("200") == Some(200.0)
  {
    assert "2"[..0] == "" && "20"[..1] == "2" && "200"[..2] == "20";
    assert DigitsValue("2") == 2;
    assert DigitsValue("20") == 20;
    assert DigitsValue("200") == 200;
    ParseDigits("200");
  }

  /** What the scenario's ledgers total to. */
  lemma ScenarioTotals(tryParse: string -> Option<real>)
    requires RejectsBlank(tryParse) && ReadsScenario(tryParse)
    ensures !IsBlank("Rent") && !IsBlank("Food")
    ensures CalculateBudget("1000", [Expense("Rent", 500.0), Expense("Food", 150.5)], tryParse)
      == Ok(Totals(650.5, 349.5, Green))
    ensures CalculateBudget("1000", [Expense("Food", 150.5)], tryParse) == Ok(Totals(150.5, 849.5, Green))
  {
    assert !IsWhiteSpace("Rent"[0]) && !IsWhiteSpace("Food"[0]);
    var both := [Expense("Rent", 500.0), Expense("Food", 150.5)];
    assert Sum(both[1..]) == 150.5 by { assert both[1..][1..] == []; }
    CalculateBudgetParsed("1000", both, tryParse, 1000.0);
    CalculateBudgetParsed("1000", both[1..], tryParse, 1000.0);
  }

  /** The window's flow on the example of an income and two bills: adding
      ("Rent", "500") and ("Food", "150.50") against income "1000" shows 650.50 spent and
      349.50 left, in green; removing Rent then leaves 849.50. */
  method Scenario(tryParse: string -> Option<real>) returns (ledger: Ledger)
    requires RejectsBlank(tryParse) && ReadsScenario(tryParse)
    ensures ledger.expenses == [Expense("Food", 150.5)]
    ensures ledger.shown == Some(Totals(150.5, 849.5, Green))
  {
    ScenarioTotals(tryParse);
    ledger := new Ledger();
    var rent := ledger.AddExpense("Rent", "500", "1000", tryParse);
    var food := ledger.AddExpense("Food", "150.50", "1000", tryParse);
    ghost var both := ledger.expenses;
    assert both == [] + [Expense("Rent", 500.0)] + [Expense("Food", 150.5)];
    assert ledger.shown == Some(Totals(650.5, 349.5, Green));
    var gone := ledger.RemoveExpense(Some(0), "1000", tryParse);
    assert both[..0] == [] && both[1..] == [Expense("Food", 150.5)];
  }

  /** Income "200" against a rent of "500": the window shows -300 in red, and the PDF's
      remaining cell is -300 in red as well. */
  lemma OverspentScenario(title: string, tryParse: string -> Option<real>, fixed2: real -> string)
    requires RejectsBlank(tryParse) && ReadsScenario(tryParse)
    ensures CalculateBudget("200", [Expense("Rent", 500.0)], tryParse) == Ok(Totals(500.0, -300.0, Red))
    ensures PdfExport.Report([Expense("Rent", 500.0)], title, "200", tryParse, fixed2).remaining == -300.0
    ensures PdfExport.Report([Expense("Rent", 500.0)], title, "200", tryParse, fixed2).remainingColour == Red
  {
    var rent := [Expense("Rent", 500.0)];
    assert Sum(rent) == 500.0 by { assert rent[1..] == []; }
    CalculateBudgetParsed("200", rent, tryParse, 200.0);
  }
}
