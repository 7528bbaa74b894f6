# Co-investor analytics: a verified model

The model covers the core of a small Flask service for co-investor analysis.
A user uploads a CSV of Indian startup funding rounds. The service cleans it:
investor names are normalised, the investors and verticals are split on commas,
and incomplete rows are dropped. From the cleaned frame its routes serve:

- a dashboard of the most frequent investors and domains, with basic counts;
- per-investor details;
- a per-investor network map;
- a one-page PDF report.

The library modules under `src/` also provide frequent-itemset mining of
investors, and of startups that share investors, and a `compute_insights`
summary. No route calls them: `app.py` imports the two apriori functions
but never uses them, and does not import `compute_insights` or the
multi-level functions. The model covers them as library functions.

It holds the last uploaded frame and a cached dashboard as global state.

The Dafny project keeps the structure of the Python modules:

| file | models |
|---|---|
| `basics.dfy` | options, flattening, filtering, sums |
| `text.dfy` | `strip`, `lower`, `replace`, `title`, `split(',')`, and `list(set)` as an ascending list |
| `counting.dfy` | insertion-ordered counters (`dict.get(k,0)+1`, `Counter`) and `most_common` / `sorted(key=-count)[:n]` |
| `preprocess.dfy` | `src/preprocess.py` |
| `mining.dfy` | one-hot tables, transposition, the miner's result tables and their JSON form |
| `multi_level_apriori.dfy` | `src/multi_level_apriori.py` |
| `apriori_unweighted.dfy` | `src/apriori_unweighted.py` |
| `apriori_weighted.dfy` | `src/apriori_weighted.py` |
| `insights.dfy` | `src/insights.py` |
| `report.dfy` | `src/report.py`: the data gathering, and the drawing as a list of positioned text lines |
| `app.dfy` | `app.py`: the `DATA` / `INSIGHTS_CACHE` globals as the fields of class `App`, and each route as a method returning `Ok(payload)` or `Fail(status, message)` |

The miner (mlxtend's `apriori` and `association_rules`) is outside the
repository. It is a parameter of the model: a pair of functions.

Python dicts and `Counter`s keep insertion order. They are modelled as sequences of
`Entry(key, count)`, and `Counting.TallyIsTally` proves that the keys
are in first-occurrence order. Python's `sorted` and `most_common` are
stable. The model's `SortByCount` is too: among entries with equal counts the
original order is kept.

## Model

| member | source | states |
|---|---|---|
| Preprocess.NormalizeInvestor | src/preprocess.py:14-20 | a normalised name has no surrounding whitespace and is title-cased |
| Preprocess.NormalizeIgnoresCase | src/preprocess.py:15 | names equal up to letter case normalise to the same name |
| Preprocess.NormalizeIgnoresSurroundingSpace | src/preprocess.py:15 | surrounding whitespace does not change the normalised name |
| Preprocess.CollapseAliases | src/preprocess.py:16-18 | the three alias rewrites keep a trimmed name trimmed (what each rewrite does inside a longer name is stated by the three `Collapse…Inside` lemmas) |
| Preprocess.CollapseSequoia | src/preprocess.py:16-18 | "sequoia capital india" collapses to "sequoia" through the whole rewrite chain |
| Preprocess.CollapseAccel | src/preprocess.py:16-18 | "accel partners" collapses to "accel"; the earlier Sequoia rewrite leaves it alone |
| Preprocess.CollapseMatrix | src/preprocess.py:16-18 | "matrix partners india" collapses to "matrix"; the two earlier rewrites leave it alone |
| Preprocess.CollapseSequoiaInside | src/preprocess.py:16-18 | inside a longer name, the first "sequoia capital india" becomes "sequoia", the text before it is kept and the rest is rewritten alike; the Accel and Matrix rewrites then run on that result |
| Preprocess.CollapseAccelInside | src/preprocess.py:16-18 | in a name without the Sequoia alias, the first "accel partners" becomes "accel", and the Matrix rewrite runs on that result |
| Preprocess.CollapseMatrixInside | src/preprocess.py:16-18 | in a name without the Sequoia and Accel aliases, the first "matrix partners india" becomes "matrix", and nothing else changes |
| Preprocess.CollapseSequoiaAdvisors | src/preprocess.py:16-18 | "sequoia capital india advisors" collapses to "sequoia advisors": the other words are kept |
| Preprocess.NormalizeSequoia | src/preprocess.py:14-20 | any case and padding of "Sequoia Capital India" normalises to "Sequoia" |
| Preprocess.NormalizeAccel | src/preprocess.py:14-20 | any case and padding of "Accel Partners" normalises to "Accel" |
| Preprocess.NormalizeMatrix | src/preprocess.py:14-20 | any case and padding of "Matrix Partners India" normalises to "Matrix" |
| Preprocess.InvestorsList | src/preprocess.py:23 | the investors list has one more entry than the field has commas (so it is never empty); the i-th entry is the normalised i-th comma piece |
| Preprocess.Pieces | src/preprocess.py:27 | a missing vertical cell gives no pieces; otherwise one stripped piece per comma part; no piece has surrounding whitespace |
| Preprocess.VerticalsList | src/preprocess.py:26-31 | SubVertical is used when that column exists, else Vertical, else every list is empty |
| Preprocess.StartupNames | src/preprocess.py:33 | the startup-name column copies each row's startup name |
| Preprocess.CleanRow | src/preprocess.py:23-33 | a kept row keeps its startup name and amount, and gets one investor per comma piece, each trimmed and title-cased |
| Preprocess.PreprocessDataset | src/preprocess.py:10-39 | given both required columns (dropna raises without them), the cleaned rows are exactly the rows with both a startup and an investors name, in order, each cleaned; all_investors lists each distinct normalised investor once; all_startups is the startup-name column |
| Preprocess.KeptRowsInOrder | src/preprocess.py:11 | row filtering distributes over concatenation, so it keeps the rows' order |
| Preprocess.KeptAreComplete | src/preprocess.py:11 | every row that survives the dropna has both a startup name and an investors cell |
| Text.Strip | src/preprocess.py:15 | `str.strip` leaves no whitespace at either end |
| Text.StripLowerCommute | src/preprocess.py:15 | stripping and lower-casing commute |
| Text.Lower | src/preprocess.py:15 | `str.lower` maps each character through the ASCII lower-case map, keeping the length, so no upper-case letter is left and non-upper characters are unchanged |
| Text.ReplaceAtFirst | src/preprocess.py:16-18 | `str.replace` rewrites the leftmost occurrence: the text before it is kept, the occurrence becomes the replacement, and the rest is rewritten alike |
| Text.ReplaceAbsent | src/preprocess.py:16-18 | `str.replace` leaves a string without the pattern unchanged |
| Text.Title | src/preprocess.py:19 | `str.title` gives a title-cased string that equals its input up to case and keeps every non-letter |
| Text.Split | src/preprocess.py:23 | `split(',')` gives at least one piece; no piece holds a comma; joining the pieces with commas gives the input back |
| Text.SplitCount | src/preprocess.py:23 | the number of pieces is the number of commas plus one |
| Text.SplitJoin | src/preprocess.py:23 | splitting comma-free pieces joined by commas gives the pieces back |
| Text.SetToSeq | src/preprocess.py:36-39 | `list(set)` lists each element of the set exactly once |
| Counting.TallyIsTally | app.py:59-62 | the counter has distinct keys, exactly the elements counted, each with its number of occurrences, in first-occurrence order |
| Counting.TallySize | app.py:73 | the counter has one key per distinct element |
| Counting.TallyKeys | app.py:59-62 | the counter's keys are exactly the elements counted |
| Counting.BumpNew | app.py:62 | `get(v, 0) + 1` on a key not yet present appends it with count 1 |
| Counting.BumpExisting | app.py:62 | `get(v, 0) + 1` on a present key raises that key's count by one and changes no other entry |
| Counting.CountOccurrences | app.py:59-62 | the nested counting loop builds the counter of the flattened lists |
| Counting.CountOthers | app.py:97-101 | the co-investor loop builds the counter of the flattened lists with the investor skipped |
| Counting.CountOthersExcludes | app.py:100 | the co-investor counter never holds the investor, and counts every other name correctly |
| Counting.SortByCount | app.py:63 | the stable sort by descending count returns a permutation in non-increasing count order, with equal-count entries in their original order |
| Counting.MostCommon | app.py:63 | the top n are min(n, size) entries, non-increasing in count, a sub-multiset of the counter, and a prefix of each equal-count run |
| Counting.MostCommonIsTop | app.py:63 | an entry left out of the top n has a count no larger than any listed entry |
| Counting.MostCommonDistinct | app.py:63 | ranking a counter with distinct keys keeps the keys distinct |
| Counting.MostCommonCounts | app.py:105-106 | every ranked entry names an element of the counted list, with its true count |
| Mining.OneHot | src/apriori_unweighted.py:9-10 | the one-hot table has one column per distinct item (no repeats), one row per list, and a cell true exactly when the row's list holds the item |
| Mining.OneHotColumnsUsed | src/apriori_unweighted.py:9-10 | every column of the one-hot table is true in some row |
| Mining.OneHotIgnoresRepetition | src/apriori_unweighted.py:10 | lists with the same elements row by row give the same table |
| Mining.Transpose | src/multi_level_apriori.py:18 | `.T` makes the index the columns, and cell (v, j) is the original cell (j, v) |
| Mining.TransposeTwice | src/multi_level_apriori.py:18 | transposing twice gives the table back |
| Mining.FormatItemsets | src/apriori_unweighted.py:16 | one JSON row per itemset, in order; its items list each member once, and its support is copied |
| Mining.FormatRules | src/apriori_unweighted.py:17-19 | one JSON row per rule, in order; antecedent and consequent list their sets exactly, and support, confidence and lift are copied |
| Mining.FormatItemsetsInjective | src/apriori_unweighted.py:16 | the JSON itemset rows determine the itemset table |
| MultiLevelApriori.InvestorTable | src/multi_level_apriori.py:6-7 | the investor table has one column per distinct investor and one row per funding row; a cell is true exactly when the investor is in that row |
| MultiLevelApriori.InvestorInvestorApriori | src/multi_level_apriori.py:4-10 | the miner gets the investor table and min_support; the rules come from exactly those itemsets with min_confidence |
| MultiLevelApriori.StartupTable | src/multi_level_apriori.py:16-18 | the transposed table has one column per funding row, labelled with its startup name, and one row per investor; a cell is true exactly when that investor is in that row |
| MultiLevelApriori.StartupTableRowsUsed | src/multi_level_apriori.py:16-18 | every investor's transaction names at least one startup |
| MultiLevelApriori.StartupTableTransposesBack | src/multi_level_apriori.py:18 | the startup table transposed back is the investor table |
| MultiLevelApriori.StartupStartupApriori | src/multi_level_apriori.py:12-20 | the miner gets the transposed table and min_support; the rules come from exactly those itemsets |
| AprioriUnweighted.RunAprioriUnweighted | src/apriori_unweighted.py:4-21 | mines the investor table with the given thresholds and returns both result tables in JSON form |
| AprioriUnweighted.UnweightedIsInvestorLevel | src/apriori_unweighted.py:9-13 | the unweighted apriori function formats exactly what the investor-to-investor level mines |
| AprioriWeighted.Amounts | src/apriori_weighted.py:15 | a missing amount counts as 0 |
| AprioriWeighted.Normalize | src/apriori_weighted.py:16-17 | each weight is the amount divided by the total of all amounts |
| AprioriWeighted.NormalizeSumsToOne | src/apriori_weighted.py:16-17 | the weights sum to 1 |
| AprioriWeighted.NormalizeBounded | src/apriori_weighted.py:16-17 | with non-negative amounts every weight lies in [0, 1] |
| AprioriWeighted.NormalizeScaleFree | src/apriori_weighted.py:16-17 | scaling every amount by the same non-zero factor leaves the weights unchanged |
| AprioriWeighted.NormalizeUniform | src/apriori_weighted.py:16-17 | n equal amounts each weigh 1/n |
| AprioriWeighted.WeightedTable | src/apriori_weighted.py:20 | the weighted cell is the row's weight where the investor is present, and 0 elsewhere, over the same columns |
| AprioriWeighted.RunAprioriWeighted | src/apriori_weighted.py:4-31 | without an amount column the result is the unweighted result; otherwise the miner gets the weighted investor table and both tables are formatted |
| AprioriWeighted.EqualAmountsWeighUniformly | src/apriori_weighted.py:15-20 | when every row has the same amount, each present cell weighs 1/(number of rows) |
| Insights.RowsPerStartup | src/insights.py:23 | the groupby gives one entry per distinct startup name, holding its number of rows, in ascending name order |
| Insights.TopStartups | src/insights.py:23 | exactly min(10, number of distinct startups) entries, distinct, non-increasing, each with its true row count |
| Insights.TopStartupsAreTop | src/insights.py:23 | a startup left out of top_startups has no more rows than any listed one |
| Insights.TopCoCounts | src/insights.py:11-14 | every top co-investor is an investor of the frame, with its true number of appearances |
| Insights.TopCoAreTop | src/insights.py:11-14 | an investor left out of top_co appears no more often than any listed one |
| Insights.ComputeInsights | src/insights.py:5-40 | n_startups is the number of rows and n_unique_investors the number of distinct investors; top_co, top_domains, top_startups and both mining levels use the default thresholds |
| Report.Selected | src/report.py:15 | the selected rows are exactly the rows whose investors list holds the name |
| Report.GatherInvestor | src/report.py:15-28 | the startups, the flattened domains and the co-investor counter of the selected rows |
| Basics.Flatten | src/report.py:21 | the flattened lists hold exactly the elements of the individual lists |
| Report.CoInvestorsShareARow | src/report.py:24-28 | k is a co-investor exactly when k is not the investor and some row lists both |
| Report.CoInvestorCounts | src/report.py:24-28 | each co-investor's count is its number of appearances in the investor's rows |
| Report.DrawItems | src/report.py:50-53 | draws one 12-point line per item at x = 70, each 15 points below the last, and moves the cursor down 15 per item |
| Report.Decimal | src/report.py:43 | the decimal text of a count is a non-empty run of digits with no leading zero |
| Report.DecimalValue | src/report.py:62 | reading the written digits back gives the number: the text denotes the count it was written for |
| Report.DrawSection | src/report.py:47-53 | draws a bold 16-point heading at x = 50, then the items from 20 points lower, and moves the cursor down 20 plus 15 per item |
| Report.SectionBand | src/report.py:47-53 | a section's lines run top-down from its heading, every one strictly above the point where the cursor ends |
| Report.Layout | src/report.py:34-73 | every line is at its exact font, size and position; the cursor ends 195 points plus 15 per item below the top; with at most 10 items per section every line starts on the page, in top-down order, above the final cursor |
| Report.LaysOutFits | src/report.py:34-73 | any page laid out this way with at most 10 items per section starts every line within the page, top-down, never overlapping the next section |
| Report.GenerateInvestorPdf | src/report.py:6-79 | the page lists the name, the number of rows, the first 10 startups, the 10 most common domains and co-investors, at the positions above, every line starting on the page |
| App.DashboardMatchesInsights | app.py:57-79 | the dashboard's rankings equal those of compute_insights, and len(co_count) is the number of distinct investors |
| App.ComputeDashboard | app.py:57-79 | the counting loops and rankings of get_insights compute the dashboard of the frame |
| App.DashboardOf | app.py:57-73 | the dashboard counts every row, and both top lists hold at most 10 distinct entries in non-increasing count order |
| App.NetworkLinksConnect | app.py:189-197 | a link exists exactly from the investor to one of its startups, or from such a startup to one of that row's verticals |
| App.RowLinks | app.py:192-197 | one row gives the investor-to-startup link first, then one startup-to-vertical link per vertical, in order |
| App.NetworkLinksCount | app.py:189-197 | there is one link per selected row plus one per vertical of those rows |
| App.AddRow | app.py:191-197 | one row adds its investor link, then one link per vertical, and its verticals to the domain set |
| App.CollectRows | app.py:189-197 | the row loop yields the links in row order, the set of startups and the set of verticals |
| App.AddNodes | app.py:198-201 | one node of the given kind per element of the set, with no repeats |
| App.BuildNetwork | app.py:184-203 | the investor node first, then one node per distinct startup, then one per distinct vertical, and the links of the selected rows |
| App.App.constructor | app.py:20-21 | the app starts with no data and an empty cache |
| App.App.UploadFile | app.py:33-46 | a missing file field gives 400 and an empty file part gives 400 "No file uploaded"; a CSV without the startup-name or investors-name column gives 500; none of these changes state; any other CSV replaces the data with its cleaned form and clears the cache |
| App.App.GetInsights | app.py:51-81 | without data it gives 400 "No data uploaded" and changes nothing; otherwise it gives the dashboard of the current data and leaves it cached |
| App.App.InvestorDetails | app.py:86-107 | without data it gives 400; otherwise the investor's startups in row order, and the 10 most common domains and co-investors (the investor left out) |
| App.App.GenerateReport | app.py:112-173 | without data it gives 400; otherwise a download named `<name>_report.pdf` holding the report page |
| App.App.NetworkMap | app.py:178-203 | without data it gives 400; otherwise the investor's network as BuildNetwork states |
| App.InsightsTwice | app.py:57 | two dashboard requests in a row give equal replies |
| App.UploadThenInsights | app.py:44-45 | after an accepted upload, the dashboard is that of the newly cleaned data, never a stale cached one; a refused upload keeps the data |

## Left out

- File and network I/O are not modelled: Flask's request handling, `pd.read_csv`, the static index page, and the PDF bytes (reportlab's canvas and `send_file`). A CSV arrives as an already-parsed frame of optional cells, and a page is a list of positioned text lines.
- The mlxtend `apriori` and `association_rules` functions are not part of this model. They are the two function fields of the `Miner` parameter, so nothing is proved about the support, confidence or lift they compute.
- AprioriWeighted.RunAprioriWeighted: requires the amounts to have a non-zero total when the amount column exists. With a zero total, pandas divides and produces NaN or infinite weights, and floating point is not modelled. `src/apriori_weighted.py:16-17` divides by the total without a guard, and the model leaves that case out.
- AprioriWeighted.Normalize: requires a non-zero total, for the same reason.
- Report.LaysOutFits: proves only that every line starts on the page (its x and y). Text width is not modelled. reportlab neither wraps nor clips, so a long line such as the 22-point title `Investor Report: {investor_name}` runs past the 612-point right edge when the investor's name is long enough.
- Amounts are reals, not IEEE doubles. There is no rounding, no NaN other than a missing cell (which `fillna(0)` turns into 0), and no dtype coercion of the amount column.
- Text is ASCII-only: `lower` and `title` change only A–Z and a–z, and whitespace is the ASCII control and separator characters that `str.strip` removes. Unicode case mapping is not modelled.
- Set iteration order, as in `list(set)` in `src/preprocess.py:39` and the mining functions, is modelled as ascending lexicographic order. Python's actual order is unspecified. The node loops in `app.py:198-201` are modelled as any order (AddNodes picks an arbitrary element).
- Insights.RowsPerStartup: models pandas `sort_values(ascending=False)` tie order as name order (the groupby's own order, kept by the stable sort). The default quicksort in pandas does not promise any tie order.
- Insights.ComputeInsights: `n_startups` is `len(df)`, the number of funding rows, not the number of distinct startups. The model states what the code computes.
- App.App.UploadFile: a request without a 'file' field makes Flask reply 400 by itself. It is modelled as `Fail(400, "Bad Request")`, not as Flask's HTML error page. Likewise the KeyError that `dropna` raises for a CSV without the 'Startup Name' or 'Investors Name' column is modelled as `Fail(500, "Internal Server Error")`, not as Flask's error page or traceback.
- Preprocess.PreprocessDataset: requires both required columns, because the source raises KeyError without them (`src/preprocess.py:11`). The route checks this first and models the exception as a 500 reply.
- App.App.GenerateReport: the route repeats the drawing code of `src/report.py`. It is modelled once, by `Report.GenerateInvestorPdf`, which draws the same lines.
- `App` has no mining or `compute_insights` method, because `app.py` has no route that calls them (the imports at `app.py:11-12` are unused).
- Concurrent requests to the shared globals are not modelled. Each route is one atomic method call on the `App` object.
- The unused `all_startups` in `src/multi_level_apriori.py:14` has no effect and is not modelled.
- Duplicate startup names in the startup-level table stay separate columns with the same label. Any merging of them inside the miner is not modelled.
