/** The lines ExportToCsv_Click writes to BudgetExport.csv. Numbers are rendered by the
    parameter `format` (decimal.ToString in the current culture) and the income text is
    read by the parameter `tryParse` (decimal.TryParse). */
module CsvExport {
  import opened Wrappers
  import opened Text
  import opened Budget

  /** One expense line: the name as typed, a comma, the amount. Names are not quoted. */
  function ExpenseLine(e: Expense, format: real -> string): string
  {
    e.name + "," + format(e.amount)
  }

  /** The Remaining Balance figure: income minus the sum when the income text parses,
      and 0 (not minus the sum) when it does not, including when it is blank. */
  function CsvRemaining(incomeText: string, expenses: seq<Expense>, tryParse: string -> Option<real>): (r: real)
    ensures tryParse(incomeText).None? ==> r == 0.0
    ensures tryParse(incomeText).Some? ==> r + Sum(expenses) == tryParse(incomeText).value
  {
    match tryParse(incomeText)
    case Some(inc) => inc - Sum(expenses)
    case None => 0.0
  }

  /** The whole file, line by line. */
  function CsvLines(incomeText: string, expenses: seq<Expense>, tryParse: string -> Option<real>, format: real -> string): seq<string>
  {
    ["Income," + incomeText, "Expense Name,Amount"]
    + seq(|expenses|, i requires 0 <= i < |expenses| => ExpenseLine(expenses[i], format))
    + ["", "Total Expenses," + format(Sum(expenses)),
       "Remaining Balance," + format(CsvRemaining(incomeText, expenses, tryParse))]
  }

  /** ExportToCsv_Click: the writes, one line at a time, with the foreach over Expenses. */
  method ExportCsv(incomeText: string, expenses: seq<Expense>, tryParse: string -> Option<real>, format: real -> string)
    returns (lines: seq<string>)
    ensures lines == CsvLines(incomeText, expenses, tryParse, format)
  {
    lines := ["Income," + incomeText];
    lines := lines + ["Expense Name,Amount"];
    var i := 0;
    while i < |expenses|
      invariant 0 <= i <= |expenses|
      invariant |lines| == i + 2
      invariant lines[0] == "Income," + incomeText && lines[1] == "Expense Name,Amount"
      invariant forall k :: 0 <= k < i ==> lines[k + 2] == ExpenseLine(expenses[k], format)
    {
      lines := lines + [expenses[i].name + "," + format(expenses[i].amount)];
      i := i + 1;
    }
    lines := lines + [""];
    lines := lines + ["Total Expenses," + format(Sum(expenses))];
    var remaining := match tryParse(incomeText)
                     case Some(inc) => inc - Sum(expenses)
                     case None => 0.0;
    lines := lines + ["Remaining Balance," + format(remaining)];
  }

  /** The layout: n + 5 lines, the two headers, one line per expense in collection order,
      a blank line, the total and the remaining balance. */
  lemma CsvLayout(incomeText: string, expenses: seq<Expense>, tryParse: string -> Option<real>, format: real -> string)
    ensures var lines := CsvLines(incomeText, expenses, tryParse, format);
      var n := |expenses|;
      && |lines| == n + 5
      && lines[0] == "Income," + incomeText
      && lines[1] == "Expense Name,Amount"
      && (forall k :: 0 <= k < n ==> lines[k + 2] == expenses[k].name + "," + format(expenses[k].amount))
      && lines[n + 2] == ""
      && lines[n + 3] == "Total Expenses," + format(Sum(expenses))
      && lines[n + 4] == "Remaining Balance," + format(CsvRemaining(incomeText, expenses, tryParse))
  {
    var rows := seq(|expenses|, i requires 0 <= i < |expenses| => ExpenseLine(expenses[i], format));
    var footer := ["", "Total Expenses," + format(Sum(expenses)),
                   "Remaining Balance," + format(CsvRemaining(incomeText, expenses, tryParse))];
    var lines := CsvLines(incomeText, expenses, tryParse, format);
    assert lines == ["Income," + incomeText, "Expense Name,Amount"] + rows + footer;
    assert forall k :: 0 <= k < |expenses| ==> lines[k + 2] == rows[k];
    assert forall k :: 0 <= k < 3 ==> lines[|expenses| + 2 + k] == footer[k];
  }

  /** Reading a line back: the text before the first comma, and the text after it. */
  function SplitAtComma(line: string): (string, string)
  {
    var i := IndexOf(line, ',');
    if i < |line| then (line[..i], line[i + 1..]) else (line, "")
  }

  /** A name without a comma reads back from its line together with the rendered amount. */
  lemma ExpenseLineReadsBack(e: Expense, format: real -> string)
    requires ',' !in e.name
    ensures SplitAtComma(ExpenseLine(e, format)) == (e.name, format(e.amount))
  {
    LabelledLineReadsBack(e.name, format(e.amount));
  }

  lemma {:induction false} CommaAfter(name: string, rest: string)
    requires ',' !in name
    ensures IndexOf(name + "," + rest, ',') == |name|
  {
    var line := name + "," + rest;
    if |name| == 0 {
      assert line[0] == ',';
    } else {
      assert line[0] == name[0];
      assert line[1..] == name[1..] + "," + rest;
      CommaAfter(name[1..], rest);
    }
  }

  /** Reading a whole file back: the (name, amount text) pairs of the lines between the
      two header lines and the last three lines. */
  function ReadExpenseLines(lines: seq<string>): seq<(string, string)>
    requires |lines| >= 5
  {
    seq(|lines| - 5, i requires 0 <= i < |lines| - 5 => SplitAtComma(lines[i + 2]))
  }

  /** When no name holds a comma, the file reads back as the expenses in collection order
      (each amount as its rendered text), and its last two lines as the rendered total
      and remaining balance. */
  lemma CsvReadsBack(incomeText: string, expenses: seq<Expense>, tryParse: string -> Option<real>, format: real -> string)
    requires forall i :: 0 <= i < |expenses| ==> ',' !in expenses[i].name
    ensures |CsvLines(incomeText, expenses, tryParse, format)| == |expenses| + 5
    ensures |ReadExpenseLines(CsvLines(incomeText, expenses, tryParse, format))| == |expenses|
    ensures forall i :: 0 <= i < |expenses| ==>
      ReadExpenseLines(CsvLines(incomeText, expenses, tryParse, format))[i] == (expenses[i].name, format(expenses[i].amount))
    ensures SplitAtComma(CsvLines(incomeText, expenses, tryParse, format)[|expenses| + 3])
      == ("Total Expenses", format(Sum(expenses)))
    ensures SplitAtComma(CsvLines(incomeText, expenses, tryParse, format)[|expenses| + 4])
      == ("Remaining Balance", format(CsvRemaining(incomeText, expenses, tryParse)))
  {
    CsvLayout(incomeText, expenses, tryParse, format);
    CsvExpensesReadBack(CsvLines(incomeText, expenses, tryParse, format), expenses, format);
    FooterReadsBack(format(Sum(expenses)), format(CsvRemaining(incomeText, expenses, tryParse)));
  }

  /** The two footer lines read back as their captions and their figures. */
  lemma FooterReadsBack(total: string, remaining: string)
    ensures SplitAtComma("Total Expenses," + total) == ("Total Expenses", total)
    ensures SplitAtComma("Remaining Balance," + remaining) == ("Remaining Balance", remaining)
  {
    assert "Total Expenses," + total == "Total Expenses" + "," + total;
    assert ',' !in "Total Expenses";
    LabelledLineReadsBack("Total Expenses", total);
    assert "Remaining Balance," + remaining == "Remaining Balance" + "," + remaining;
    assert ',' !in "Remaining Balance";
    LabelledLineReadsBack("Remaining Balance", remaining);
  }

  /** The expense lines of a file read back one by one. */
  lemma CsvExpensesReadBack(lines: seq<string>, expenses: seq<Expense>, format: real -> string)
    requires forall i :: 0 <= i < |expenses| ==> ',' !in expenses[i].name
    requires |lines| == |expenses| + 5
    requires forall k :: 0 <= k < |expenses| ==> lines[k + 2] == expenses[k].name + "," + format(expenses[k].amount)
    ensures forall i :: 0 <= i < |expenses| ==>
      ReadExpenseLines(lines)[i] == (expenses[i].name, format(expenses[i].amount))
  {
    forall i | 0 <= i < |expenses|
      ensures ReadExpenseLines(lines)[i] == (expenses[i].name, format(expenses[i].amount))
    {
      ExpenseLineReadsBack(expenses[i], format);
    }
  }

  /** A footer line reads back as its label and its figure. */
  lemma LabelledLineReadsBack(caption: string, figure: string)
    requires ',' !in caption
    ensures SplitAtComma(caption + "," + figure) == (caption, figure)
  {
    var line := caption + "," + figure;
    CommaAfter(caption, figure);
    assert line[..|caption|] == caption;
    assert line[|caption| + 1..] == figure;
  }

  /** With no expenses the file still has its five lines and a total of 0. */
  lemma CsvEmptyLedger(incomeText: string, tryParse: string -> Option<real>, format: real -> string)
    ensures var lines := CsvLines(incomeText, [], tryParse, format);
      lines == ["Income," + incomeText, "Expense Name,Amount", "", "Total Expenses," + format(0.0),
                "Remaining Balance," + format(CsvRemaining(incomeText, [], tryParse))]
  {
  }

  /** A name that holds a comma does not read back: the unquoted field splits. */
  lemma CommaInNameSplits(format: real -> string)
    ensures SplitAtComma(ExpenseLine(Expense("Rent, May", 500.0), format)).0 == "Rent"
  {
    var line := ExpenseLine(Expense("Rent, May", 500.0), format);
    assert line[4] == ',' && line[0] != ',' && line[1] != ',' && line[2] != ',' && line[3] != ',';
    assert IndexOf(line, ',') == 4;
    assert line[..4] == "Rent";
  }
}
