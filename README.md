# StockSense: upload analysis and dashboard scripts, modelled in Dafny

This project models the logic of a small inventory dashboard (StockSense AI).

- **Backend (`backend/app.py`).** A Flask endpoint takes two uploaded spreadsheets, one of sales and one of stock.
  - It reads each file with the reader its suffix selects.
  - It classifies each file from its column headers and rejects missing, unreadable, swapped or unrecognisable files.
  - `processar_dados` then locates the date, quantity and product columns through priority lists of names. From them it builds:
    - the risk set (stock below 10) and the excess set (stock above 100);
    - the purchase suggestions;
    - an ordered alert list;
    - a seven-date sales series.
- **Dashboard script (`frontend/script.js`).** It turns that answer into:
  - three card counters;
  - a risk caption, chosen from the rupture alert with the fewest days left;
  - excess and suggestion captions;
  - the "Adequado" donut slice;
  - the alert list.

  It also checks the two files of the import form before sending them.
- **Other pages.**
  - `frontend/js/dashboard.js`: search and status filters over the stock table, and the active sidebar item.
  - `frontend/js/estoque.js`: the stock table, one ten-cell row per product or a single error row.
  - `frontend/js/main.js`: the landing page's FAQ accordion, button loading state, e-mail check, and navbar and hamburger toggles.

Modules, one per source file plus shared pieces:

| module | file | models |
|---|---|---|
| `Wrappers` | `wrappers.dfy` | `Option` and `Result` |
| `Text` | `text.dfy` | lower-casing, substring search, suffixes, trimming (Python and JavaScript white space), decimal digits |
| `PyValues` | `pyvalues.dfy` | the cells of a pandas frame, Python's `+` on them in a grouped `sum`, and `float()` |
| `BackendApp` | `app.dfy` | `backend/app.py`: readers, classification, column lookup, analysis, the `/processar` route |
| `SalesSeries` | `series.dfy` | the `groupby(...).sum().tail(7)` sales series of `backend/app.py` and its `"%d/%m"` labels |
| `DashboardScript` | `dashboard_script.dfy` | `frontend/script.js` |
| `DashboardTable` | `dashboard_table.dfy` | the table filters of `frontend/js/dashboard.js` |
| `Sidebar` | `sidebar.dfy` | the active-item rule, written identically in `frontend/js/dashboard.js` and `frontend/js/estoque.js` |
| `StockPage` | `stock.dfy` | `frontend/js/estoque.js` |
| `LandingPage` | `landing.dfy` | `frontend/js/main.js` |

The model takes the source's own form:

- Code that only computes a value becomes functions and lemmas.
- Code that updates elements in place becomes classes:
  - `DataFrame` for the pandas frame, whose labels `get_col` rewrites;
  - `Dashboard` and `ImportModal` for the dashboard page;
  - `Table`, `NavMenu`, `StockTable`, `Faq`, `Button`, `Navbar` and `Hamburger`.
  Their methods carry `modifies` clauses.
- Loops in the source are loops here, with their invariants:
  - `get_col`'s nested search;
  - the two alert loops;
  - every `forEach` that updates rows, nav items, FAQ items or the alert list.
- Each method is proved against a function that specifies it. That function's meaning is proved as separate lemmas.

Things the program does not compute itself are parameters of the model:

- BackendApp.Reader: the pandas readers, as a function from the chosen reader to a parsed frame or an error text.
- The `parseDate` parameter: `pd.to_datetime(..., errors="coerce")`, as a function from a cell to an optional timestamp. It stands for the conversion of one given date column: pandas infers a single format for the whole column, so whether a cell parses can depend on the other cells of that column. Every property here holds for any such function.
- The outcome of each `fetch`, as a value: `StockPage.Fetched` and `DashboardScript.Reply`.

## Model

| member | source | states |
|---|---|---|
| Text.Lower | backend/app.py:30 | lower-cases every character in place, keeping the length |
| Text.LowerIdempotent | frontend/js/dashboard.js:139-143 | lower-casing twice is lower-casing once |
| Text.Contains | backend/app.py:35-36 | `p in s` holds exactly when `p` occurs at some position of `s` |
| Text.EmptyOccurs | frontend/js/dashboard.js:144 | every text contains the empty text |
| Text.TrimStart | backend/app.py:99 | drops exactly the leading white space: the result is a suffix, starts with a non-space, and everything dropped is space |
| Text.TrimEnd | backend/app.py:99 | drops exactly the trailing white space: the result is a prefix, ends with a non-space, and everything dropped is space |
| Text.Trim | frontend/js/dashboard.js:161 | the trimmed text neither starts nor ends with white space |
| Text.NatToString | frontend/script.js:38 | a number prints as decimal digits without a leading zero |
| Text.ParseNatToString | frontend/script.js:38 | reading a printed number back gives the number |
| PyValues.Add | backend/app.py:113 | one step of the grouped sum skips NaN, and a sum that has failed stays failed |
| PyValues.ParseFloatText | backend/app.py:145 | `float()` of a text reads only a text with something besides white space, and one starting with a digit reads as a non-negative number |
| PyValues.ParseFloatIntText | backend/app.py:145 | `float(str(n))` gives back `n` |
| PyValues.ToFloat | backend/app.py:145 | a numeric sum converts to itself, a group without values to 0, and a failed sum never converts |
| BackendApp.ReaderFor | backend/app.py:16-23 | `.csv`/`.txt` selects the CSV reader, `.xlsx`/`.xls` Excel, `.json` JSON, and no reader otherwise, each as an if-and-only-if |
| BackendApp.SuffixesExclusive | backend/app.py:16-21 | a name matches at most one reader family, so the branch order cannot change the choice |
| BackendApp.CarregarArquivo | backend/app.py:11-25 | succeeds exactly when the lower-cased name selects a reader and that reader succeeds, returning its frame; every failure is a message that starts with "Erro ao ler o arquivo '<lower-cased name>': ", and an unsupported suffix gives the unsupported-format text |
| BackendApp.LowerAll | backend/app.py:30 | the classified labels are the lower-cased column labels, one for one |
| BackendApp.HasPattern | backend/app.py:35-36 | a label matches when one of the patterns occurs in it |
| BackendApp.AnyColumnHas | backend/app.py:35-36 | `any(p in col ...)` is true exactly when some pattern occurs in some label |
| BackendApp.DetectarTipo | backend/app.py:28-45 | "vendas" iff a sales pattern and no stock pattern occurs, "estoque" symmetrically, "indefinido" iff both occur, "desconhecido" iff neither does (case-insensitive) |
| BackendApp.Normalize | backend/app.py:99 | `c.strip().lower()` is lower-case and neither starts nor ends with white space |
| BackendApp.LowerStrip | backend/app.py:88 | `lower().strip()` is lower-case and neither starts nor ends with white space |
| BackendApp.NormalizedIsStable | backend/app.py:88-100 | a label normalised by processar_dados is unchanged by get_col's lower/strip and by a second normalisation |
| BackendApp.NormalizeAllStable | backend/app.py:88-100 | the same for the whole label list |
| BackendApp.TrimStartLower | backend/app.py:88 | stripping and lower-casing commute (leading side) |
| BackendApp.TrimEndLower | backend/app.py:88 | stripping and lower-casing commute (trailing side) |
| BackendApp.TrimIdempotent | backend/app.py:88 | stripping twice is stripping once |
| BackendApp.FirstColumnWith | backend/app.py:90-92 | the first column, in column order, that contains the name; None iff no column does |
| BackendApp.FindColumnSpec | backend/app.py:86-93 | get_col's answer: None (the KeyError) iff no name occurs in any column; otherwise the first column containing the earliest name that occurs anywhere |
| BackendApp.SearchColumns | backend/app.py:89-93 | the nested loops return exactly FindColumn's answer |
| BackendApp.DataFrame.GetCol | backend/app.py:86-93 | rewrites the labels lower-cased and stripped, then answers as FindColumn on the new labels |
| BackendApp.StockItems | backend/app.py:116-117 | one (product, quantity) item per stock row, in row order |
| BackendApp.BandPositions | backend/app.py:116-117 | the positions, ascending, of exactly the stock rows whose quantity compares true (below 10, or above 100) |
| BackendApp.Select | backend/app.py:116-117 | the boolean mask keeps the rows at BandPositions, in row order, and each kept row is in the band |
| BackendApp.SelectSpec | backend/app.py:116-117 | a row is selected iff it is a stock row in the band, and as many times as it occurs in the frame |
| BackendApp.RiskAndExcessDisjoint | backend/app.py:116-117 | no item is both at risk and in excess |
| BackendApp.AlertFor | backend/app.py:124-136 | a risk row gives a Ruptura with its product text and stock, whose `dias_restantes` is `q // 3` (3d <= q < 3d + 3) when q >= 6 and 1 below that; an excess row gives an Excesso with 45 days |
| BackendApp.AlertsFor | backend/app.py:124-137 | one alert per selected item, in order |
| BackendApp.BuildAlertas | backend/app.py:123-137 | the two loops build the rupture alerts of the risk rows followed by the excess alerts of the excess rows |
| BackendApp.RuptureAlerts | backend/app.py:123-129 | every alert built from a risk row is a rupture with stock below 10 and `dias_restantes == max(1, q // 3) >= 1` |
| BackendApp.ExcessAlerts | backend/app.py:130-137 | every alert built from an excess row is an excess alert with stock above 100 and 45 idle days |
| BackendApp.AlertsShape | backend/app.py:123-137 | the alert count is risk plus excess; the first alerts are ruptures with stock below 10 and `dias_restantes == max(1, q // 3) >= 1`; the rest are excess alerts with stock above 100 and 45 days |
| BackendApp.Produtos | backend/app.py:120 | one suggestion per risk row |
| BackendApp.DatedPositions | backend/app.py:111-112 | the positions, ascending, of exactly the sales rows whose date parses |
| BackendApp.SalesRows | backend/app.py:111-112 | `dropna` keeps the rows at DatedPositions, in row order, each as its parsed date and its quantity cell |
| BackendApp.Summarize | backend/app.py:110-153 | the analysis rejects only with the 500, and exactly when the sales series fails (a date whose quantities mix numbers and texts, or a kept total that `float()` cannot read) or some stock quantity is text |
| BackendApp.LocateSales | backend/app.py:103-105 | succeeds iff all three lookups find a column, with the date and quantity positions they find; otherwise it is the KeyError response of the first failing lookup in the order date, quantity, product |
| BackendApp.LocateStock | backend/app.py:107-108 | succeeds iff both lookups find a column, with their positions; otherwise the KeyError response of the first failing one, quantity before product |
| BackendApp.Locate | backend/app.py:103-108 | succeeds iff both frames' lookups succeed, with their positions; otherwise the sales frame's error comes first, then the stock frame's |
| BackendApp.LocateSpec | backend/app.py:103-108 | the lookups succeed iff each of the five name lists is mentioned by some label; otherwise the KeyError names the first list, in source order, that no label mentions |
| BackendApp.KeyErrorResponse | backend/app.py:149-150 | a KeyError is answered with status 400 and a message starting "Erro de mapeamento de colunas: " |
| BackendApp.Analyse | backend/app.py:96-153 | a 400 is answered exactly when a column lookup fails, and any other rejection is the 500 |
| BackendApp.LocateColumns | backend/app.py:103-108 | the five get_col calls on two distinct normalised frames leave the labels as they are and answer as Locate |
| BackendApp.LocateSalesColumns | backend/app.py:103-105 | the three sales get_col calls answer as LocateSales |
| BackendApp.LocateStockColumns | backend/app.py:107-108 | the two stock get_col calls answer as LocateStock |
| BackendApp.ProcessarDados | backend/app.py:96-153 | given two distinct frames, as both callers pass (two separate reads), reassigns both frames' labels to their stripped, lower-cased form and answers as Analyse on the original frames |
| BackendApp.Answer | backend/app.py:103-153 | with the columns located on the normalised labels, the answer is the KeyError response when one is missing and the summary otherwise, exactly Analyse on the original labels |
| BackendApp.SummarizeLocated | backend/app.py:110-147 | once the columns are found, the answer is Summarize on those columns |
| BackendApp.SummarizeRows | backend/app.py:110-153 | the analysis body answers as Summarize |
| BackendApp.AnalyseLocated | backend/app.py:96-147 | when all columns are found the located positions are columns of every row and Analyse is Summarize on them |
| BackendApp.SummarizeProcessed | backend/app.py:116-147 | in a processed answer `sugestoes_compra == produtos_em_risco`, the alert count is risk plus excess, labels and values have equal length of at most 7, and the alerts have the shapes of AlertsShape |
| BackendApp.SummarizeCountsRows | backend/app.py:116-146 | in a processed answer the risk and excess counts are the numbers of stock rows in each band, and alert k is the alert of the k-th risk row, then of the excess rows |
| BackendApp.AlertsAt | backend/app.py:123-137 | alert k is the alert of the k-th risk row, followed by the alerts of the excess rows in row order |
| BackendApp.AnalyseRejections | backend/app.py:149-153 | processar_dados rejects only with the 500 or with the KeyError 400 of one of the four name lists |
| BackendApp.LocateRejects | backend/app.py:103-108 | a failed lookup is the KeyError 400 of one of the four name lists |
| BackendApp.AnalyseRejectionText | backend/app.py:149-153 | every rejection of processar_dados starts with "Erro" |
| BackendApp.AnalyseMissingDate | backend/app.py:103 | a sales frame with no date-like column is answered with the KeyError 400 naming the date list, whatever else the frames hold |
| BackendApp.Processar | backend/app.py:48-71 | the route answers as Respond: missing files, then read errors, then the swapped pair, then unknown kinds, then processar_dados |
| BackendApp.Respond | backend/app.py:48-71 | every rejection of the route other than a 400 is the 500 of processar_dados |
| BackendApp.Route | backend/app.py:62-71 | after the files are read, every rejection other than a 400 is the 500 of processar_dados |
| BackendApp.ObrigatoriosExactly | backend/app.py:53-54 | "Arquivos de vendas e estoque são obrigatórios." is answered exactly when a field is missing or has an empty filename |
| BackendApp.RouteNeverObrigatorios | backend/app.py:62-71 | classification and analysis never answer with the missing-files text |
| BackendApp.SwappedExactly | backend/app.py:66-67 | the swapped-files 400 is given iff the sales file looks like stock and the stock file looks like sales |
| BackendApp.RouteForwards | backend/app.py:66-71 | the unknown-kind 400 is given iff the pair is not swapped and some file is "desconhecido"; every other pair, "indefinido" included, goes to processar_dados |
| SalesSeries.AddToSpec | backend/app.py:113 | adding a quantity to a date's group keeps the groups ascending, adds the date, adds the quantity to that date and changes no other date |
| SalesSeries.AddToKeys | backend/app.py:113 | adding a quantity under a date adds that date to the group dates and no other |
| SalesSeries.AddToOrder | backend/app.py:113 | adding a quantity under a date keeps the groups strictly ascending by date |
| SalesSeries.AddToLookup | backend/app.py:113 | adding a quantity under a date adds it to that date's total and leaves every other date's total unchanged |
| SalesSeries.GroupSum | backend/app.py:113 | the groups are strictly ascending by date and their dates are exactly the dates of the rows |
| SalesSeries.GroupSumSpec | backend/app.py:113 | each date's group holds the grouped sum of that date's quantity cells, and a date without rows has no value |
| SalesSeries.SumOnCases | backend/app.py:113 | a date's sum is the integer sum when only numbers occur, the concatenation in row order when only texts occur, the TypeError when both occur, and no value when only NaN occurs |
| SalesSeries.TextQuantitiesConcatenate | backend/app.py:113 | the text quantities "3" and "2" on one date sum to the text "32" |
| SalesSeries.ConcatenatedTextReads | backend/app.py:145 | `float("32")` is 32, so that day is reported with 32 units sold |
| SalesSeries.FailedGroups | backend/app.py:113 | some group's sum fails exactly when the sum on some row's date mixes a number and a text |
| SalesSeries.LastSeven | backend/app.py:113 | `tail(7)`: the last min(7, n) groups |
| SalesSeries.LastSevenAreLatest | backend/app.py:113 | every dropped date precedes every kept date |
| SalesSeries.Pad2 | backend/app.py:144 | a `%d`/`%m` field has at least two digits and reads back as the number |
| SalesSeries.MakeSeries | backend/app.py:113-145 | fails (the 500) iff some date's sum raises or some kept total is not readable by `float()`; otherwise labels and values have equal length of at most 7, label k is the `"%d/%m"` text of the k-th kept date and value k is `float()` of its sum |
| SalesSeries.SeriesTotals | backend/app.py:113 | each kept group holds the sum of the quantities of its date |
| DashboardScript.RupturaPositions | frontend/script.js:21 | the positions, ascending, of exactly the alerts whose type contains "ruptura" |
| DashboardScript.Rupturas | frontend/script.js:20-27 | record k is the product and `dias_restantes` of the k-th rupture alert, in alert order |
| DashboardScript.RupturasEmpty | frontend/script.js:20-29 | there is no rupture iff no alert's type contains "ruptura" |
| DashboardScript.DiasPositions | frontend/script.js:31 | the positions, ascending, of exactly the ruptures that have a day count |
| DashboardScript.ComDias | frontend/script.js:31 | record k is the product and day count of the k-th rupture that has one |
| DashboardScript.ComDiasEmpty | frontend/script.js:31-32 | no rupture is dated iff every rupture lacks a day count |
| DashboardScript.MinDias | frontend/script.js:30-34 | the fewest days is the day count of some dated rupture and no more than any other |
| DashboardScript.FirstWith | frontend/script.js:33-34 | the first rupture, in alert order, with a given day count |
| DashboardScript.Insert | frontend/script.js:33 | one insertion step keeps every record and adds the new one |
| DashboardScript.InsertBound | frontend/script.js:33 | inserting a record with at least b days among records with at least b days keeps every day count at least b |
| DashboardScript.InsertSorted | frontend/script.js:33 | inserting into a sequence ordered by days keeps it ordered |
| DashboardScript.SortByDias | frontend/script.js:33 | the sort leaves the ruptures ordered by days, as a permutation of its input |
| DashboardScript.SortKeepsCounts | frontend/script.js:33-36 | the sort keeps the number of ruptures with each day count |
| DashboardScript.SortHead | frontend/script.js:33-34 | the stable sort puts first the earliest, in alert order, of the ruptures with the fewest days |
| DashboardScript.SortedFirst | frontend/script.js:33-35 | the first sorted rupture has the fewest days, is the first such in alert order, and the sort keeps the count of ruptures with that many days |
| DashboardScript.NoticeFor | frontend/script.js:29-51 | a day caption iff some rupture has days; a tie counts more than one rupture with the fewest days; the undated caption counts all ruptures; the critical caption needs no rupture and a positive counter; "no risk" iff there is no rupture and the counter is absent or not positive |
| DashboardScript.RiskText | frontend/script.js:38-50 | the caption is "Nenhuma ruptura prevista" exactly in the no-risk case, and the day captions start with "Ruptura prevista em " |
| DashboardScript.DescribeRisk | frontend/script.js:29-51 | sorting, taking the first and counting equal deadlines gives the caption for the fewest days: their count when tied, the product otherwise; then the count of undated ruptures, then the critical counter, then "Nenhuma ruptura prevista" |
| DashboardScript.NearestIsFirstMinimum | frontend/script.js:34-40 | a caption naming one product uses the fewest days of all dated ruptures, held by that rupture alone |
| DashboardScript.NearestNamesAlert | frontend/script.js:33-40 | a caption naming one product names a rupture alert with that day count, and no rupture alert with a day count has fewer days |
| DashboardScript.NearestWording | frontend/script.js:40 | "dia" is followed by "s" exactly when the day count is above 1 |
| DashboardScript.NoRupturesFallback | frontend/script.js:46-51 | without rupture alerts the caption is the critical-level text iff the risk counter is positive, else "Nenhuma ruptura prevista" |
| DashboardScript.ExcessoText | frontend/script.js:55-59 | "Sem excesso relevante" exactly when the excess counter is absent or not positive |
| DashboardScript.SugestoesText | frontend/script.js:62-64 | "Nenhuma reposição sugerida" exactly when the suggestion counter is absent or not positive |
| DashboardScript.Adequado | frontend/script.js:115 | the slice is never negative and is at least 100 minus the other two; it completes them to 100 when they sum to at most 100, is 0 beyond that, and is NaN (None) when a counter is missing |
| DashboardScript.PanelFor | frontend/script.js:8-64 | the risk caption is "Nenhuma ruptura prevista" iff no alert is a rupture and the risk counter is absent or not positive; the excess and suggestion captions are their defaults iff their counters are absent or not positive; the first two donut slices are the counters and the third exists iff both do |
| DashboardScript.RenderPanel | frontend/script.js:8-64 | the counters (0 when absent), the three captions and the donut slices of PanelFor |
| DashboardScript.Dashboard.AtualizarAlertas | frontend/script.js:129-138 | the alert list becomes exactly one entry per alert, in order |
| DashboardScript.Dashboard.AtualizarDashboard | frontend/script.js:5-69 | afterwards the dashboard shows the answer: the panel of PanelFor and one alert entry per alert of the array (none when `alertas` is not an array) |
| DashboardScript.Dashboard.OnMockData | frontend/script.js:140-155 | a failed request or unreadable body shows "Erro ao carregar dados demo" and a truthy `erro` is shown, both leaving the dashboard as it was; any other body is shown in full |
| DashboardScript.ValidarArquivo | frontend/script.js:203-213 | a file is accepted iff its lower-cased name ends with an allowed extension or its MIME type is allowed |
| DashboardScript.CheckFiles | frontend/script.js:189-218 | sending goes ahead iff both files are chosen and both are valid; a missing file gives the "selecione os dois arquivos" alert |
| DashboardScript.SalesCheckedFirst | frontend/script.js:216 | when the sales file is invalid only the sales file is reported |
| DashboardScript.ImportModal.OpenModal | frontend/script.js:164-166 | the modal is shown |
| DashboardScript.ImportModal.CloseModal | frontend/script.js:169-180 | the modal is hidden and both file inputs are reset |
| DashboardScript.ImportModal.Submit | frontend/script.js:183-229 | stops with CheckFiles' alert and the button untouched, or shows "Processando..." on a disabled button |
| DashboardScript.ImportModal.Receive | frontend/script.js:231-262 | the button is reset in every case; a failed request and an error answer give their alerts and leave modal, form and dashboard as they were; a successful answer closes the modal, makes the dashboard show the answer in full and resets the form |
| DashboardTable.Table.OnSearch | frontend/js/dashboard.js:138-145 | a row is visible iff its lower-cased text contains the lower-cased term |
| DashboardTable.Table.OnStatusChange | frontend/js/dashboard.js:152-167 | every row is visible for "Todos os status"; otherwise a row is visible iff it has a badge whose trimmed text equals the value |
| DashboardTable.SearchThenStatus | frontend/js/dashboard.js:142-167 | each handler rewrites every row, so after a search and a status change the status filter alone decides visibility |
| DashboardTable.EmptySearchShowsAll | frontend/js/dashboard.js:144 | an empty term shows every row |
| DashboardTable.SearchIgnoresCase | frontend/js/dashboard.js:139-143 | a term and its lower-cased form show the same rows |
| DashboardTable.NoBadgeOnlyForAll | frontend/js/dashboard.js:157-165 | a row without a badge is shown only for "Todos os status" |
| DashboardTable.PaddedValueMatchesNoBadge | frontend/js/dashboard.js:161 | a value starting or ending with white space never matches a (trimmed) badge |
| Sidebar.LastSegment | frontend/js/dashboard.js:12 | `split("/").pop()`: the slash-free suffix after the last '/', or the whole path |
| Sidebar.LastSegmentOfJoin | frontend/js/dashboard.js:12 | the last segment of `dir/name` is `name` |
| Sidebar.LastSegmentNoSlash | frontend/js/estoque.js:12 | a path without '/' is its own last segment |
| Sidebar.NavMenu.MarkActive | frontend/js/dashboard.js:12-18 | an item is active iff its href equals the path's last segment; all others are made inactive |
| StockPage.OrDash | frontend/js/estoque.js:39-40 | a falsy value (0, "", null, undefined) prints "-", any other value prints itself |
| StockPage.ToFixed2 | frontend/js/estoque.js:35 | the price text ends in a point and exactly two digits |
| StockPage.ToFixed2RoundTrip | frontend/js/estoque.js:35 | the two-decimal text reads back as the price in cents |
| StockPage.RenderRow | frontend/js/estoque.js:31-42 | ten cells in column order, the price cell is "R$ " and the two-decimal price, each date cell is "-" when the date is falsy and the date itself otherwise |
| StockPage.FinalBody | frontend/js/estoque.js:22-50 | one row per product in fetch order, or the single ten-column error row when the request fails or some price is not a number |
| StockPage.FinalBodyShape | frontend/js/estoque.js:26-50 | the body is either the single error row or holds only ten-cell product rows |
| StockPage.StockTable.Load | frontend/js/estoque.js:20-50 | clearing the placeholder, appending a row per product and replacing everything on a failure mid-loop ends with FinalBody |
| StockPage.LoadStockPage | frontend/js/estoque.js:3-51 | the active nav item is the one matching the path and the table body is FinalBody |
| LandingPage.Faq.Click | frontend/js/main.js:75-87 | after a click only the clicked item can be active, and it is iff it was not; at most one item is active |
| LandingPage.OnlyOneActive | frontend/js/main.js:78-86 | a list in which only item k may be active has one or zero active items |
| LandingPage.Button.AddLoadingState | frontend/js/main.js:115-119 | disables the button, saves its markup and shows the spinner with the given or default text |
| LandingPage.Button.RemoveLoadingState | frontend/js/main.js:121-124 | re-enables the button and restores the saved markup ("undefined" if none was saved) |
| LandingPage.LoadAndRestore | frontend/js/main.js:115-124 | loading then unloading restores the exact markup, enabled |
| LandingPage.LoadTwiceAndRestore | frontend/js/main.js:117-118 | a second loading before the removal leaves the first spinner instead of the original markup |
| LandingPage.IndexOf | frontend/js/main.js:110 | the position of the first occurrence of a character, or None when there is none |
| LandingPage.ValidateEmail | frontend/js/main.js:109-112 | true iff the text is three non-empty runs without white space or '@', joined by '@' and '.' as the regular expression reads |
| LandingPage.AcceptedEmailShape | frontend/js/main.js:110 | an accepted address has no white space and exactly one '@', with text before it |
| LandingPage.Navbar.OnScroll | frontend/js/main.js:4-13 | "scrolled" is set iff the scroll offset exceeds 50 |
| LandingPage.Hamburger.Click | frontend/js/main.js:20-23 | both classes are toggled, so they stay equal when they start equal |

## Left out

- Flask, CORS, `jsonify` and `app.run`: answers are the `Response` datatype (status and `erro` text, or the summary).
- The `/mock` route (`backend/app.py:74-83`) reads two demo files from disk. Only `processar_dados`, which it calls, is modelled.
- The pandas readers and `pd.to_datetime` are function parameters (foreign calls). What a reader raises is its error text.
- SalesSeries.Timestamp: a parsed date keeps its second within the day. pandas keeps nanoseconds, so two rows that differ by less than a second form two groups there and one group here.
- BackendApp.CarregarArquivo: the detail that `str(e)` appends to "Erro ao ler o arquivo ..." is whatever the reader reports. For an unsupported suffix it is the fixed text.
- BackendApp.Summarize: `vendas_valores` are floats in the source and integers here. The detail text of the 500 (`str(e)` of the exception) is left empty.
- PyValues.ParseFloatText: `float()` also reads texts with a fraction, an exponent, digit-group underscores, "inf", "nan" or non-ASCII digits. The model reads only an optional sign and decimal digits, and treats every other text as unreadable (the 500).
- BackendApp.StockItem: quantities are integers. A fractional stock quantity is not modelled: `int(100.5)` is 100, so an Excesso alert could report 100, and a stock of 0.5 gives `dias_restantes` 1 through `max(1, 0.5 // 3)`. The bounds stated on `estoque_atual` hold for integer quantities only.
- BackendApp.Normalize: column labels are texts. A non-text label (a number read as a header) makes `c.lower()` in `detectar_tipo_arquivo` raise an AttributeError outside any `try`, so Flask answers with its own 500 page. The model has no such labels.
- BackendApp.Locate: labels that become equal after normalisation are not modelled. `vendas[col]` then selects every column with that label, while the model reads the first.
- BackendApp.Summarize: when the date and quantity lookups return the same column, the source overwrites it with parsed dates before summing. The model sums the original quantities.
- Lower-casing covers ASCII and the Latin-1 capitals only. Python's and JavaScript's full Unicode case mapping is not modelled.
- backend/forecast.py and backend/helper.py (float statistics, numpy conversions) are not part of this model.
- Chart.js configuration and instance handling (`frontend/script.js:71-127`, `frontend/js/dashboard.js:21-114`): only the donut's `max(0, ...)` slice is modelled.
- The `oportunidade` card (`toLocaleString` formatting) and the charts' `vendas_labels`/`vendas_valores` pass-through are not modelled.
- All `fetch` calls, the sidebar HTML loading, `alert`, `confirm` and `console` are left out. Their outcomes are inputs, and an alert is the text a method returns.
- DashboardScript.DescribeRisk: `Number(a.dias_restantes)` of a non-numeric value (NaN) is not modelled. Day counts are integers.
- DashboardScript.ShowText, DashboardScript.ShowInt: a JSON `null` for `produto` or `estoque_atual` prints "null" in the browser; the model treats it like an absent field and prints "undefined". The backend never sends `null` there.
- DashboardScript.Adequado: a `null` counter (JavaScript turns it into 0 in the subtraction) is treated like a missing one. The backend never sends `null`.
- DashboardScript.Dashboard.AtualizarDashboard: an exception thrown inside `atualizarDashboard` (an alert whose `tipo` is not a string) is not modelled. In the demo handler such an exception would leave a partly updated dashboard and show "Erro ao carregar dados demo".
- `rupturasComDias.sort` works in place on an array. It is modelled on values, as a stable insertion sort (`Array.prototype.sort` is stable).
- `animateCounter`, the IntersectionObserver, smooth scrolling, `showNotification` and its injected styles (`frontend/js/main.js:27-66, 91-106, 126-195`) are timers, floats and presentation.
- `simulateRealTimeUpdate` and the action-button dialogs (`frontend/js/dashboard.js:116-123, 171-195`) are left out. The table-header click (`frontend/js/dashboard.js:126-133`) only logs and never reorders rows. The model's rows are constant.
- `StockPage.ToFixed2`: prices are integer cents, not floats, so `toFixed` rounding is not modelled. A price that is not a number (on which `toFixed` throws) is `None`.
- StockPage.Show: numbers are integers. Other JSON values (objects, floats, booleans) are not modelled.
- No HTML escaping happens in the source, and none is claimed: texts are interpolated into markup as they are.
- The catalog name, category and quantity-band filter (`aplicarFiltros`) appears in none of the modelled files and is not modelled.

Where the repository's description and its code differ, the model follows the code:

- The stock page treats a non-array answer as a failure only because `forEach` throws on it. A non-success HTTP status whose body is an array is rendered like any other.
- The route rejects an "indefinido" file only when the other file is "desconhecido". Two sales files are forwarded to `processar_dados`.
