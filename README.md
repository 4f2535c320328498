# Budget ledger of the BudgetApplication main window

The desktop budgeting utility keeps an income text box and an `Expenses` collection of
`Expense { Name, Amount }` records in its main window. Adding an expense validates the
name and amount text boxes before appending, removing deletes the selected entry, and
after either the window recomputes the total of the amounts, the remaining balance
(income minus total) and its colour. Two exporters turn a snapshot of the collection into
the lines of `BudgetExport.csv` and the title, table cells and footer figures of
`BudgetExport.pdf`.

The model has these modules:

- `Text`: `string.IsNullOrWhiteSpace` over `Char.IsWhiteSpace`.
- `DecimalParse`: a digit grammar for `decimal.TryParse` / `decimal.Parse`, with exact `real` values.
  It accepts optional surrounding white space, an optional leading sign, and digits with at most one decimal point.
  It is proved to reject blank text, the one property of the parser the ledger relies on.
- `Budget`: the `Expense` record (`Name`, `Amount`; MainWindow.xaml.cs:221-225), `Sum`, and the totals `CalculateBudget` shows.
- `CsvExport`: the lines of the CSV file, written by a loop, and reading them back.
- `PdfExport`: the title, the table cells in the order the loop adds them, and the footer figures and colour.
- `MainWindow`: the `Ledger` class.
  Its `expenses` field is the `Expenses` collection.
  Its `shown` field holds the totals last displayed.
  Its methods are the two click handlers and the recalculation.

Text boxes become parameters. Message boxes become `Err` results. Number rendering
(`ToString`, `:F2`, `:C`) and number parsing (`decimal.TryParse`, `decimal.Parse`) depend on the
culture, so they are function parameters (`format`, `fixed2`, `tryParse`). Where a property needs
blank text to be rejected, the contract requires `RejectsBlank(tryParse)`.
`DecimalParse.ParseDecimal` satisfies that requirement, and the scenario lemmas show it reads their inputs as intended.

Some behaviours of the source are easy to misread. The model follows the source:

- CSV `Remaining Balance` is `0`, not minus the sum, whenever the income text does not parse.
  This includes blank income, since `TryParse("")` fails (MainWindow.xaml.cs:99).
  The window and the PDF instead treat blank income as 0 and show minus the sum.
- The PDF's remaining balance is the `TryParse` out value minus the sum.
  That value is 0 on failure (MainWindow.xaml.cs:164-165).
- The CSV file has n + 5 lines: two header lines, n expense lines, a blank line, the total and the remaining balance.
- A non-blank income that does not parse makes `CalculateBudget` throw.
  The catch only shows a dialog, so the totals on screen stay as they were.

## Model

| member | source | states |
|---|---|---|
| `Text.IsBlank` | MainWindow.xaml.cs:23 | `string.IsNullOrWhiteSpace`: every character is `Char.IsWhiteSpace`, the empty string included |
| `DecimalParse.ParseDecimal` | MainWindow.xaml.cs:29 | `decimal.TryParse` / `decimal.Parse` (lines 29, 99, 164, 201): trimmed number white space, an optional sign, digits with at most one point, `None` for anything else |
| `DecimalParse.ParsedIsNotBlank` | MainWindow.xaml.cs:23-29 | any text `TryParse` accepts holds a digit, so it is not blank |
| `DecimalParse.NoBlankParses` | MainWindow.xaml.cs:99 | blank or whitespace-only text never parses |
| `DecimalParse.ParseDigits` | MainWindow.xaml.cs:29 | a plain digit string parses to its integer value |
| `DecimalParse.ParseFixedPoint` | MainWindow.xaml.cs:29 | `w.f` parses to the whole part plus the fraction over 10^len(f) |
| `DecimalParse.ParseNegated` | MainWindow.xaml.cs:29 | a leading `-` negates the parsed value (negative amounts are accepted) |
| `DecimalParse.ParseDecimalRejectsBlank` | MainWindow.xaml.cs:199-201 | the grammar meets `RejectsBlank`: no blank text parses |
| `Budget.Sum` | MainWindow.xaml.cs:204 | `Expenses.Sum(x => x.Amount)` (also lines 98, 163): the amounts added front to back, 0 for no expenses |
| `Budget.SumConcat` | MainWindow.xaml.cs:204 | the sum of amounts of a concatenation is the sum of the sums |
| `Budget.SumAppend` | MainWindow.xaml.cs:31-34 | appending one expense adds exactly its amount to the total |
| `Budget.SumRemoveAt` | MainWindow.xaml.cs:46-47 | removing entry i takes exactly its amount off the total |
| `Budget.CalculateBudget` | MainWindow.xaml.cs:194-218 | succeeds iff income is blank or parses; total = Σ amounts; green iff remaining ≥ 0; remaining = −Σ for blank income and parsed income − Σ otherwise |
| `Budget.CalculateBudgetParsed` | MainWindow.xaml.cs:198-212 | for a parser that rejects blank text, income that parses gives total Σ, remaining income − Σ, and the colour of its sign |
| `CsvExport.CsvRemaining` | MainWindow.xaml.cs:99 | income − Σ when the income text parses, 0 when it does not |
| `CsvExport.CsvLines` | MainWindow.xaml.cs:89-99 | the file's lines: income header, column header, one line per expense, blank, total, remaining |
| `CsvExport.ExportCsv` | MainWindow.xaml.cs:89-99 | the lines the writer loop produces are exactly `CsvLines` |
| `CsvExport.CsvLayout` | MainWindow.xaml.cs:89-99 | n + 5 lines: `Income,<raw>`, `Expense Name,Amount`, one `name,amount` per expense in order, blank, total, remaining |
| `CsvExport.CsvEmptyLedger` | MainWindow.xaml.cs:89-99 | with no expenses the file is the two headers, a blank line, a total of 0 and the remaining line |
| `CsvExport.ExpenseLineReadsBack` | MainWindow.xaml.cs:94 | a comma-free name splits back from its line with the rendered amount |
| `CsvExport.CsvReadsBack` | MainWindow.xaml.cs:89-99 | with comma-free names, the lines passed to `WriteLine` read back as the (name, amount) list in order, and the total and remaining figures |
| `CsvExport.FooterReadsBack` | MainWindow.xaml.cs:98-99 | the total and remaining lines split back into caption and figure |
| `CsvExport.CommaInNameSplits` | MainWindow.xaml.cs:94 | an unquoted name holding a comma does not read back (`Rent, May` reads as `Rent`) |
| `PdfExport.ReportTitle` | MainWindow.xaml.cs:134 | the title is "Budget Report" when the given title is blank, the given title otherwise |
| `PdfExport.IncomeOrZero` | MainWindow.xaml.cs:164 | the `TryParse` out value: the parsed income, or 0 when it does not parse |
| `PdfExport.Report` | MainWindow.xaml.cs:134-175 | the title, header, table cells, sum, remaining balance and its colour that `ExportToPdf` builds |
| `PdfExport.ExpenseCellsAt` | MainWindow.xaml.cs:156-160 | expense k fills cells 2k (name) and 2k+1 (amount with " DKK") |
| `PdfExport.ExportPdf` | MainWindow.xaml.cs:134-175 | the report built by the cell loop and the footer is exactly `Report` |
| `PdfExport.TableLayout` | MainWindow.xaml.cs:156-171 | 2n + 4 cells: one row pair per expense in order, then the total and remaining rows |
| `PdfExport.ReportFigures` | MainWindow.xaml.cs:163-175 | sum = Σ amounts; remaining = parsed income − Σ, or −Σ on failure; green iff remaining ≥ 0 |
| `PdfExport.ReportAgreesWithWindow` | MainWindow.xaml.cs:163-175 | whenever the window's calculation succeeds, the PDF shows the same total, balance and colour |
| `PdfExport.CsvAndPdfRemaining` | MainWindow.xaml.cs:99 | CSV and PDF balances agree when income parses; otherwise CSV shows 0 and PDF −Σ |
| `PdfExport.BlankIncomeExports` | MainWindow.xaml.cs:164 | blank income: window and PDF show −Σ, the CSV shows 0 |
| `MainWindow.Displayed` | MainWindow.xaml.cs:207-216 | a successful calculation replaces the displayed totals; a failed one leaves them |
| `MainWindow.Ledger.constructor` | MainWindow.xaml.cs:13 | the collection starts empty and nothing is displayed |
| `MainWindow.Ledger.Recalculate` | MainWindow.xaml.cs:194-218 | the outcome is `CalculateBudget` of the current expenses; the display is updated only on success |
| `MainWindow.Ledger.AddExpense` | MainWindow.xaml.cs:21-40 | blank name or amount gives `EmptyField` and unparsable amount gives `InvalidAmount`, changing nothing; otherwise exactly one entry (raw name, parsed amount) is appended, the total grows by its amount, and the display is recalculated; no stored name is ever blank |
| `MainWindow.Ledger.RemoveExpense` | MainWindow.xaml.cs:42-53 | no selection gives `NoSelection` and changes nothing; otherwise exactly the selected entry is removed, the rest keep their order, the total drops by its amount, and the display is recalculated |
| `MainWindow.DisplayedTotals` | MainWindow.xaml.cs:198-212 | after a recalculation with blank or parsable income the window shows Σ amounts, income (0 if blank) − Σ, and green iff that is ≥ 0 |
| `MainWindow.RemovalKeepsOrder` | MainWindow.xaml.cs:46 | entries before the removed one stay put and those after move up by one |
| `MainWindow.ParseDecimalReadsScenario` | MainWindow.xaml.cs:29 | the grammar reads "500", "150.50", "1000" and "200" as those numbers and rejects blank text |
| `MainWindow.ScenarioTotals` | MainWindow.xaml.cs:198-212 | income 1000 against Rent 500 and Food 150.50 gives 650.5 and 349.5 in green; against Food alone, 150.5 and 849.5 |
| `MainWindow.Scenario` | MainWindow.xaml.cs:21-53 | adding Rent 500 and Food 150.50 against income 1000 shows 650.5 spent and 349.5 left in green; removing Rent leaves Food and 849.5 |
| `MainWindow.OverspentScenario` | MainWindow.xaml.cs:163-175 | income 200 against Rent 500 shows −300 in red, both in the window and in the PDF |

## Left out

- Window construction, `ItemsSource` binding, message boxes and clearing the text boxes are not modelled (MainWindow.xaml.cs:15-19, 25, 32-33, 38, 51). Dialogs are `Err` results.
- The placeholder-text focus handlers `RemovePlaceholderText` and `AddPlaceholderText` are left out. They only change what a text box shows.
- File I/O is left out: the desktop path, `StreamWriter`, `GeneratePdf` and the export catch blocks. The exporters return their lines and cells instead.
- QuestPDF layout is left out: margins, page size, fonts, padding, borders and `CellStyle`. The library is third-party code.
- Number rendering (`decimal.ToString`, `:F2`, `:C`) is culture-dependent. It is an uninterpreted function parameter.
- `CsvExport.CsvReadsBack`: amounts read back as their rendered text, not as numbers, because rendering is uninterpreted. The read-back is over the lines passed to `WriteLine`, not the file text: a name or income text holding a line break would add lines to the file.
- `CsvExport.CsvLines` and `CsvExport.ExportCsv`: a CSV figure is a function of the value only. `decimal.ToString` keeps the scale, so `150.50m` is written `150.50` and `150.5m` is written `150.5`, and `1000.00m - 1000.00m` is written `0.00` where the fallback `0` is written `0`. Those trailing zeros are not captured. The PDF's `:F2` and the window's `:C` do not depend on the scale.
- `decimal` is an exact `real`. The model has no 28-digit precision limit, no rounding of long fractions and no `OverflowException`.
- `DecimalParse.ParseDecimal` accepts only a subset of `NumberStyles.Number`. Thousands separators, a trailing sign, culture-specific separators and trailing NUL characters are not accepted by the model.
- `MainWindow.Ledger.RemoveExpense`: the selection is an index, which must be in range. The source removes the selected object by reference. Each `Add` creates a new object, so that object sits at exactly one position.
- App.xaml.cs only sets the QuestPDF licence and is not part of this model.
