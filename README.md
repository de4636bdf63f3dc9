# Ozon finance report — a Dafny model

This project models the core of a Telegram bot that turns an Ozon seller's
accruals spreadsheet into a short financial report in Russian. That core is
`extract_report` together with `format_rub` and the three static tables of
the bot.

The steps of `extract_report` are:

- find the header row, which holds "Тип начисления", among the first ten rows;
- trim the column labels;
- drop rows whose type is a single space;
- coerce the quantity, price and total columns to numbers, with failures becoming 0;
- take the revenue rows ("выручка") and their revenue, quantity times price;
- find the product column, whose label contains "артикул", "sku" or "объявление";
- compute per-product quantities and costs from the cost table;
- compute per-category expense totals, excluding revenue rows and loyalty-point rows ("баллы");
- compute the 4 % simplified tax, net profit, both margins and the average check;
- render everything as a tree of lines joined by line breaks.

The modules follow that structure:

- `Strings`: lower-casing, strip, substring search, replace.
- `Numbers`: decimal parsing, half-even rounding, two-decimal formatting with thousands grouping, `format_rub`, `int()`.
- `Catalog`: the insertion-ordered tables `sku_costs`, `sku_names` and `expense_labels`.
- `Sheet`: cells, the header search, labels, the column lookups, numeric coercion.
- `Ledger`: records, the filters, grouping, sums and metrics.
- `Render`: the report lines, and the imperative loops that build them.
- `Report`: the whole extraction, its two error messages and the reply text.
- `Scenarios`: worked examples.

The source's step-by-step parts are methods proved against the functions that
specify them:

- the `for … else` header search is `Sheet.FindHeader`;
- the line-appending loops and the in-place rewrite of the last branch glyph are the `Render.Append*Block` methods and `Render.RenderLines`;
- the whole procedure is `Report.ExtractReport`.

Money is modelled with exact `real` numbers. Python's fixed-point formatting
rounds the exact value half to even, and the model does the same.

Three behaviours of the code are easy to misread:

- The sales count (`total_qty`) sums the quantity of every product group of the revenue rows. This includes products missing from the cost table; it is not limited to the three known products.
- The expense categories come out in ascending key order, because `groupby` sorts its keys. They do not come out in order of first appearance.
- The product column is looked up after the revenue has been computed. Quantities come from revenue rows only.

## Model

| member | source | states |
|---|---|---|
| Numbers.FormatRubShape | ozon_bot.py:29-30 | the rouble text has no comma and ends in " ₽" after a point and exactly two digits; with its space separators removed it is the plain two-decimal numeral, which reads back as a value within half a kopeck of the input |
| Numbers.FormatRubReadBack | ozon_bot.py:29-30 | the rouble text has no comma, and without " ₽" and its spaces it is the plain two-decimal numeral, which reads back to within half a kopeck of the input |
| Numbers.FormatRubLayout | ozon_bot.py:29-30 | the rouble text is an optional minus (exactly for a negative amount), the whole roubles, a point, two digits and " ₽"; the whole-roubles part is digits with a space exactly before every group of three counted from the right, and without the spaces it is the decimal numeral of the whole roubles |
| Numbers.FormatPercentShape | ozon_bot.py:97-98 | a margin line's number ends in "%" after a point and exactly two digits, and without the "%" it reads back to within half a hundredth of the margin |
| Numbers.Fixed2RoundTrip | ozon_bot.py:29-30 | the two-decimal numeral parses back to the rounded value, which is within 0.005 of the input |
| Numbers.FormatRubMapped | ozon_bot.py:30 | `format_rub` is the grouped numeral with every comma turned into a space, followed by " ₽" |
| Numbers.RoundHalfEven | ozon_bot.py:30 | rounding lands within one half of the input, and on an exact tie it lands on the even integer |
| Numbers.GroupUngroup | ozon_bot.py:30 | inserting thousands separators and removing them again gives back the digits |
| Numbers.GroupCommas | ozon_bot.py:30 | the `,` format option puts a comma exactly before every group of three digits counted from the right, never first or last, adding one comma per three digits after the first |
| Numbers.Trunc | ozon_bot.py:89 | `int()` truncates toward zero: the result's magnitude is at most the input's and within one of it, with the same sign |
| Numbers.IntToStringRoundTrip | ozon_bot.py:89 | the printed integer parses back to the same number |
| Strings.LowerIdempotent | ozon_bot.py:42 | lower-casing twice is lower-casing once |
| Strings.ContainsIff | ozon_bot.py:51 | substring search succeeds exactly when the pattern occurs at some position |
| Catalog.GetAt | ozon_bot.py:55 | looking up the key of an entry of a table with distinct keys gives that entry's value |
| Catalog.DisplayName | ozon_bot.py:75 | a product without a display name is shown by its own code |
| Catalog.OzonTablesValid | ozon_bot.py:9-27 | each of the bot's three tables has distinct keys; no product code or display name holds the branch glyph; every costed product has a display name |
| Catalog.OzonNamesDistinct | ozon_bot.py:15-19 | no product has two display names |
| Catalog.OzonLabelsDistinct | ozon_bot.py:21-27 | no expense category has two labels |
| Sheet.FindHeader | ozon_bot.py:34-39 | the loop returns the first of the first ten rows that holds the "Тип начисления" cell, or none exactly when none of the ten does |
| Sheet.HeaderRow | ozon_bot.py:34-39 | the header row is the first marker row among the first ten; without one, the first ten rows hold no marker |
| Sheet.HeaderUnique | ozon_bot.py:34-37 | there is at most one header row |
| Strings.Strip | ozon_bot.py:41 | the stripped text is a slice of the original with only whitespace cut off on either side, and it neither starts nor ends with whitespace |
| Strings.StripPadded | ozon_bot.py:41 | stripping keeps exactly the text between the leading and the trailing whitespace: a whitespace-only string strips to empty, and the inside of a padded word is kept whole |
| Strings.StripIdempotent | ozon_bot.py:41 | stripping twice is stripping once |
| Sheet.LabelCases | ozon_bot.py:41 | a text header cell is labelled by its text with only the surrounding whitespace cut off; an empty cell is labelled "Unnamed: k"; a number gives no string label |
| Sheet.ColumnIndex | ozon_bot.py:42-45 | a column found by name is the first one carrying that label; the lookup fails exactly when no label equals the name |
| Sheet.MarkerColumnExists | ozon_bot.py:35-42 | the row found by the header search always has the accounting-type column |
| Sheet.ProductColumn | ozon_bot.py:51 | the product column is the first label that names a product, and every label before it is a string that does not; it is missing exactly when every label is such a string |
| Sheet.ToNumber | ozon_bot.py:43-45 | numbers pass through unchanged; empty cells and text that does not parse become 0 |
| Sheet.CoerceInteger | ozon_bot.py:43-45 | text that spells an integer coerces to that integer |
| Report.TableRecords | ozon_bot.py:41-51 | each data row gives one record whose type comes from the first column labelled "Тип начисления", whose quantity, price and total are the coerced cells of the first columns labelled "Количество", "Цена продавца" and "Сумма итого, руб", and whose product is the cell of the product column |
| Ledger.KeptIff | ozon_bot.py:42 | the first filter drops exactly the rows whose type is a single space |
| Ledger.Classify | ozon_bot.py:47-59 | a row is revenue exactly when its lower-cased type is "выручка"; it is excluded exactly when its type is not "выручка" but contains "баллы" |
| Ledger.ClassifyAgrees | ozon_bot.py:47-59 | the revenue filter and the two expense filters select the revenue and expense buckets, and no row is both |
| Ledger.Partition | ozon_bot.py:47-59 | the revenue, expense and excluded rows together account for every kept row |
| Ledger.FilterConcat | ozon_bot.py:42-59 | filtering a concatenation filters each part |
| Ledger.TotalRevenueShare | ozon_bot.py:47-49 | total revenue equals the revenue share of all rows, quantity times price summed over revenue rows only |
| Ledger.GroupQtyOf | ozon_bot.py:54 | the grouped quantity of a product is the total quantity of the revenue rows with that product cell |
| Ledger.GroupQtySum | ozon_bot.py:54-67 | the groups add up to the quantity of all revenue rows that name a product |
| Ledger.AddQtyGroup | ozon_bot.py:54 | adding a row to a group changes that group by the row's quantity and leaves every other group alone |
| Ledger.CostBySku | ozon_bot.py:55 | the costs have exactly the products of the cost table as keys, in table order |
| Ledger.CostOfProduct | ozon_bot.py:55 | the cost of each product in the cost table is its sold quantity times its unit cost |
| Ledger.UnknownProductNoCost | ozon_bot.py:55-56 | a sale of a product missing from the cost table changes no product's cost |
| Ledger.Insert | ozon_bot.py:60 | inserting a key keeps the key list strictly ascending, and the result holds exactly the old keys and the new one |
| Ledger.TypeKeys | ozon_bot.py:60 | the expense categories are strictly ascending, and are exactly the types that occur among the expense rows |
| Ledger.BelowTotal | ozon_bot.py:60 | the key order is total on distinct strings |
| Ledger.ExpenseSums | ozon_bot.py:60 | there is one entry per category, in key order, and its amount is the absolute value of the summed totals of the expense rows of that type |
| Ledger.ExpenseKeysDistinct | ozon_bot.py:60 | no category appears twice among the expense sums |
| Ledger.ExpenseSumsGet | ozon_bot.py:60 | looking a type up in the expense sums gives the absolute value of the summed totals of its rows, and 0 for a type that has no expense row |
| Ledger.TypeTotalAppend | ozon_bot.py:60 | one more row adds its total to the sum of its own type and leaves every other type's sum unchanged |
| Ledger.ExpenseSumsAppend | ozon_bot.py:60 | one more expense row changes only its own category, to the absolute value of the old signed sum plus its total |
| Ledger.ExpenseRowAdded | ozon_bot.py:58-61 | an expense row that survives the filters changes only its own category of the report, to the absolute value of the category's signed sum plus its total; every other category keeps its amount |
| Ledger.ExpenseSumsShape | ozon_bot.py:60-61 | the category totals are non-negative with strictly ascending keys, so the expense total is non-negative |
| Ledger.Tax | ozon_bot.py:63 | the tax is one twenty-fifth (4 %) of the revenue |
| Ledger.Margin | ozon_bot.py:65-66 | a margin is the part as a percentage of the revenue, and 0 without revenue |
| Ledger.AvgCheck | ozon_bot.py:68 | the average check times the quantity is the revenue, and it is 0 without quantity |
| Ledger.SummaryMetrics | ozon_bot.py:63-68 | net profit is 96 % of revenue less cost and expenses; expenses are non-negative; the sales count is the quantity of every revenue row naming a product; margins and the average check are 0 when their divisor is |
| Ledger.KeptAppend | ozon_bot.py:42 | the first filter on one more row adds that row exactly when it is kept |
| Ledger.PointsRowIgnored | ozon_bot.py:59 | a loyalty-points row changes nothing in the report's figures |
| Ledger.RevenueRowNoExpense | ozon_bot.py:58-61 | a revenue row changes neither the expense categories nor their totals |
| Ledger.UnknownProductSale | ozon_bot.py:47-67 | a sale of an unknown product raises revenue and the sales count but no cost |
| Render.ExpenseLabel | ozon_bot.py:82 | a category without a label is shown as "▫️ " followed by its key |
| Render.ConnectorClosesLast | ozon_bot.py:83 | the closing glyph is used on the last line of a block and only there |
| Render.CloseBranch | ozon_bot.py:77-94 | rewriting the glyphs of a line whose text has no branch glyph turns only its own connector into the closing one |
| Render.CloseBlock | ozon_bot.py:74-77 | appending the open lines and rewriting the last of them gives the block whose last line is closed |
| Render.AppendCostBlock | ozon_bot.py:74-77 | the loop and rewrite append the cost block: one line per product in table order, the last one closed |
| Render.AppendExpenseBlock | ozon_bot.py:79-84 | the heading of the other expenses is appended, then one line per category with its label and amount, the last one closed |
| Render.AppendQtyBlock | ozon_bot.py:91-94 | the loop and rewrite append the quantity block: one line per product in table order, the last one closed |
| Render.RenderLines | ozon_bot.py:71-99 | the imperative construction yields exactly the report's lines |
| Render.ReportLength | ozon_bot.py:71-99 | the report has 10 + 2·(products) + (categories) lines, starting with the three heading lines, with the expense heading after the cost block |
| Render.CostLinesAt | ozon_bot.py:74-77 | line 3+i of the report is product i's cost line, with the closing glyph exactly on the last product |
| Render.ExpenseLinesAt | ozon_bot.py:80-84 | the line for category i sits right after the expense heading in key order, closed exactly on the last category |
| Render.QtyLinesAt | ozon_bot.py:91-94 | the quantity line of product i sits right after the sales-count line, closed exactly on the last product |
| Report.ColumnsOf | ozon_bot.py:41-51 | each of the four accounting columns read is the first column labelled with its name |
| Report.HeaderMessageIff | ozon_bot.py:34-39 | the header message is the answer exactly when none of the first ten rows holds the header |
| Report.ProductMessageIff | ozon_bot.py:51-53 | the product-column message is the answer exactly when a header row exists and none of its labels names the product column |
| Report.ReportShape | ozon_bot.py:51-99 | a report is produced exactly when the product column is found, and it has every block's lines |
| Report.CostLinesSum | ozon_bot.py:55-77 | the amounts looked up for the cost lines, before formatting, are every product's cost in table order and add up to the total cost |
| Report.SortedDistinct | ozon_bot.py:60-80 | ascending category keys are distinct, so each key names one line |
| Report.ExpenseLinesSum | ozon_bot.py:60-84 | each expense line prints the amount of its own category, and the categories add up to the total of other expenses |
| Report.ReportFromTable | ozon_bot.py:51-100 | once the header is known, the answer is the product message or the report's lines joined by line breaks |
| Report.ExtractReport | ozon_bot.py:32-100 | the procedure answers with the header message, the product message or the joined report, as the extraction prescribes |
| Scenarios.TwoRowSummary | ozon_bot.py:47-68 | one sale of ten units at 500 ₽ of the first product, plus a 300 ₽ logistics charge, give revenue 5000, cost 2150, expenses 300, tax 200, net profit 2350 and an average check of 500 |
| Scenarios.TenUnitsCost | ozon_bot.py:54-56 | ten units of the first product cost 2150 ₽ and the other products cost nothing |
| Scenarios.SaleThenExpense | ozon_bot.py:47-58 | a sale row and a logistics row are split into one revenue row and one expense row |

## Left out

- Reading the workbook (`pd.read_excel`, ozon_bot.py:33 and 36) is not modelled; the model starts from the rows of the first sheet as decoded cells. Re-reading the file with `header=i` is modelled as taking the rows below row `i`.
- `os.path.basename` (ozon_bot.py:70) is not modelled; the file name is a parameter.
- The Telegram handlers, the bot start-up and the sending of the reply (ozon_bot.py:102-131) are I/O and are not part of this model.
- Floating-point arithmetic is not modelled. Money is an exact `real`, so float rounding of sums and products, negative zero ("-0.00") and infinities are not captured.
- Sheet.ToNumber: accepts only plain decimal numerals, with an optional sign, digits, an optional fraction and surrounding whitespace. Exponents, "inf" and "nan", which `pd.to_numeric` also accepts, are treated as unparseable.
- Strings.Lower: lower-cases the Latin capitals A–Z and the Cyrillic capitals U+0400–U+042F (Ѐ–Я, including Ё) only; other Unicode case mappings are not modelled.
- Sheet.Labels: does not model pandas renaming duplicate column names ("x.1"), or two labels becoming equal after stripping; the first matching column is taken.
- The crash paths of the source are preconditions (`Sheet.Readable`, `Sheet.TableReadable`), not modelled outcomes. These are: a sheet shorter than ten rows without a header (`IndexError`), a missing numeric column (`KeyError`), a non-text label before the product column, and a missing or non-text type cell.
- Ledger.GroupQty: groups product cells by equality of the decoded cell and keeps the groups in first-seen order. The sorted order pandas gives them is not modelled; only per-product lookups and the sum are used. A product cell holding a number and one holding the same text are different groups, as in pandas; empty product cells fall out, as with `dropna`.
- Render.RenderLines: requires `ValidTables`, meaning no key twice in any of the three tables and no "├" in any code or display name. Without it, `replace("├─", "└─")` would also rewrite glyphs inside a name. `Catalog.OzonTablesValid` proves the bot's own tables satisfy it.
- Render.AppendExpenseBlock: the expense amounts are read from the summary by position rather than by `expenses_sum[key]`; `Report.ExpenseLinesSum` proves the two agree.
