/** The values ExportToPdf puts into BudgetExport.pdf: the title, the table cells in the
    order they are added, and the footer figures with the colour of the balance. Layout
    (margins, fonts, borders) is not part of the model. Amounts are rendered by the
    parameter `fixed2` (the ":F2" format in the current culture) and the income text is
    read by the parameter `tryParse` (decimal.TryParse). */
module PdfExport {
  import opened Wrappers
  import opened Text
  import opened DecimalParse
  import opened Budget
  import CsvExport

  const DefaultTitle: string := "Budget Report"
  const Currency: string := " DKK"

  datatype PdfReport = PdfReport(
    title: string,
    header: seq<string>,
    cells: seq<string>,     // table cells after the header, row by row, two per row
    sumOfExpenses: real,
    remaining: real,
    remainingColour: Colour)

  /** The title span: the given title, or the default when it is blank. */
  function ReportTitle(title: string): (r: string)
    ensures IsBlank(title) ==> r == DefaultTitle
    ensures !IsBlank(title) ==> r == title
    ensures !IsBlank(r)
  {
    if IsBlank(title) then assert !IsWhiteSpace(DefaultTitle[0]); DefaultTitle
    else title
  }

  /** The income TryParse leaves in its out variable: the parsed value, or 0 on failure. */
  function IncomeOrZero(incomeText: string, tryParse: string -> Option<real>): real
  {
    match tryParse(incomeText)
    case Some(v) => v
    case None => 0.0
  }

  /** The two cells of one expense row: the name, and the amount with the currency. */
  function RowCells(e: Expense, fixed2: real -> string): seq<string>
  {
    [e.name, fixed2(e.amount) + Currency]
  }

  /** The cells of the expense rows, in collection order. */
  function ExpenseCells(expenses: seq<Expense>, fixed2: real -> string): seq<string>
  {
    if expenses == [] then []
    else ExpenseCells(expenses[..|expenses| - 1], fixed2) + RowCells(expenses[|expenses| - 1], fixed2)
  }

  /** Expense k fills cells 2k and 2k + 1. */
  lemma {:induction false} ExpenseCellsAt(expenses: seq<Expense>, fixed2: real -> string, k: nat)
    requires k < |expenses|
    ensures |ExpenseCells(expenses, fixed2)| == 2 * |expenses|
    ensures ExpenseCells(expenses, fixed2)[2 * k] == expenses[k].name
    ensures ExpenseCells(expenses, fixed2)[2 * k + 1] == fixed2(expenses[k].amount) + Currency
  {
    var init := expenses[..|expenses| - 1];
    ExpenseCellsLength(init, fixed2);
    if k < |expenses| - 1 {
      ExpenseCellsAt(init, fixed2, k);
    }
  }

  lemma {:induction false} ExpenseCellsLength(expenses: seq<Expense>, fixed2: real -> string)
    ensures |ExpenseCells(expenses, fixed2)| == 2 * |expenses|
  {
    if expenses != [] {
      ExpenseCellsLength(expenses[..|expenses| - 1], fixed2);
    }
  }

  /** The table body: the expense rows, then the Total Expenses and Remaining Balance rows. */
  function TableCells(expenses: seq<Expense>, sumOfExpenses: real, remaining: real, fixed2: real -> string): seq<string>
  {
    ExpenseCells(expenses, fixed2)
    + ["Total Expenses", fixed2(sumOfExpenses) + Currency, "Remaining Balance", fixed2(remaining) + Currency]
  }

  /** The report ExportToPdf builds for the given expenses, title and income text. */
  function Report(expenses: seq<Expense>, title: string, incomeText: string,
                  tryParse: string -> Option<real>, fixed2: real -> string): PdfReport
  {
    var sumOfExpenses := Sum(expenses);
    var remaining := IncomeOrZero(incomeText, tryParse) - sumOfExpenses;
    PdfReport(
      ReportTitle(title),
      ["Expense Name", "Amount"],
      TableCells(expenses, sumOfExpenses, remaining, fixed2),
      sumOfExpenses,
      remaining,
      if remaining >= 0.0 then Green else Red)
  }

  /** ExportToPdf: the cells are added in a foreach over the expenses, then the footer. */
  method ExportPdf(expenses: seq<Expense>, title: string, incomeText: string,
                   tryParse: string -> Option<real>, fixed2: real -> string)
    returns (report: PdfReport)
    ensures report == Report(expenses, title, incomeText, tryParse, fixed2)
  {
    var cells: seq<string> := [];
    var i := 0;
    while i < |expenses|
      invariant 0 <= i <= |expenses|
      invariant cells == ExpenseCells(expenses[..i], fixed2)
    {
      assert expenses[..i + 1][..i] == expenses[..i];
      cells := cells + [expenses[i].name];
      cells := cells + [fixed2(expenses[i].amount) + Currency];
      i := i + 1;
    }
    assert expenses[..i] == expenses;
    var sumOfExpenses := Sum(expenses);
    var income := match tryParse(incomeText) case Some(v) => v case None => 0.0;
    var remaining := income - sumOfExpenses;
    cells := cells + ["Total Expenses", fixed2(sumOfExpenses) + Currency];
    cells := cells + ["Remaining Balance", fixed2(remaining) + Currency];
    var colour := if remaining >= 0.0 then Green else Red;
    report := PdfReport(ReportTitle(title), ["Expense Name", "Amount"], cells, sumOfExpenses, remaining, colour);
  }

  /** One row pair per expense in collection order, then the two footer rows. */
  lemma TableLayout(expenses: seq<Expense>, sumOfExpenses: real, remaining: real, fixed2: real -> string)
    ensures var cells := TableCells(expenses, sumOfExpenses, remaining, fixed2);
      var n := |expenses|;
      && |cells| == 2 * n + 4
      && (forall k :: 0 <= k < n ==>
            cells[2 * k] == expenses[k].name && cells[2 * k + 1] == fixed2(expenses[k].amount) + Currency)
      && cells[2 * n] == "Total Expenses" && cells[2 * n + 1] == fixed2(sumOfExpenses) + Currency
      && cells[2 * n + 2] == "Remaining Balance" && cells[2 * n + 3] == fixed2(remaining) + Currency
  {
    var cells := TableCells(expenses, sumOfExpenses, remaining, fixed2);
    var n := |expenses|;
    ExpenseCellsLength(expenses, fixed2);
    forall k | 0 <= k < n
      ensures cells[2 * k] == expenses[k].name && cells[2 * k + 1] == fixed2(expenses[k].amount) + Currency
    {
      ExpenseCellsAt(expenses, fixed2, k);
    }
  }

  /** The footer figures: the sum, and (parsed income, or 0 on failure) minus the sum;
      the balance is green exactly when it is not negative. */
  lemma ReportFigures(expenses: seq<Expense>, title: string, incomeText: string,
                      tryParse: string -> Option<real>, fixed2: real -> string)
    ensures var r := Report(expenses, title, incomeText, tryParse, fixed2);
      && r.sumOfExpenses == Sum(expenses)
      && (tryParse(incomeText).Some? ==> r.remaining == tryParse(incomeText).value - Sum(expenses))
      && (tryParse(incomeText).None? ==> r.remaining == -Sum(expenses))
      && (r.remainingColour == Green <==> r.remaining >= 0.0)
  {
  }

  /** Whenever the window's calculation succeeds, the PDF footer shows the same balance
      in the same colour (blank income is 0 on both paths). */
  lemma ReportAgreesWithWindow(expenses: seq<Expense>, title: string, incomeText: string,
                               tryParse: string -> Option<real>, fixed2: real -> string)
    requires RejectsBlank(tryParse)
    requires CalculateBudget(incomeText, expenses, tryParse).Ok?
    ensures var r := Report(expenses, title, incomeText, tryParse, fixed2);
      var t := CalculateBudget(incomeText, expenses, tryParse).value;
      r.sumOfExpenses == t.totalExpenses && r.remaining == t.remaining && r.remainingColour == t.colour
  {
    if IsBlank(incomeText) {
      assert tryParse(incomeText) == None;
    } else {
      CalculateBudgetParsed(incomeText, expenses, tryParse, tryParse(incomeText).value);
    }
  }

  /** The CSV and the PDF agree on the balance when the income parses; when it does not,
      the CSV shows 0 and the PDF shows minus the sum. */
  lemma CsvAndPdfRemaining(expenses: seq<Expense>, title: string, incomeText: string,
                           tryParse: string -> Option<real>, fixed2: real -> string)
    ensures tryParse(incomeText).Some? ==>
      CsvExport.CsvRemaining(incomeText, expenses, tryParse)
      == Report(expenses, title, incomeText, tryParse, fixed2).remaining
    ensures tryParse(incomeText).None? ==>
      CsvExport.CsvRemaining(incomeText, expenses, tryParse) == 0.0
      && Report(expenses, title, incomeText, tryParse, fixed2).remaining == -Sum(expenses)
  {
  }

  /** Blank income: the window counts it as 0 and shows minus the sum, the PDF shows minus
      the sum too, but the CSV's Remaining Balance is 0 whatever the expenses. */
  lemma BlankIncomeExports(expenses: seq<Expense>, title: string, incomeText: string,
                           tryParse: string -> Option<real>, fixed2: real -> string)
    requires RejectsBlank(tryParse)
    requires IsBlank(incomeText)
    ensures CalculateBudget(incomeText, expenses, tryParse)
      == Ok(Totals(Sum(expenses), -Sum(expenses), if -Sum(expenses) < 0.0 then Red else Green))
    ensures Report(expenses, title, incomeText, tryParse, fixed2).remaining == -Sum(expenses)
    ensures CsvExport.CsvRemaining(incomeText, expenses, tryParse) == 0.0
  {
    assert tryParse(incomeText) == None;
  }
}
