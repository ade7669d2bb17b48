# Financial analyst tools — a Dafny model

The repository is an "agentic" financial analyst. Three tools look up a listed
company and write a plain-text report:

- a financial-metrics report;
- an M&A (mergers and acquisitions) news report;
- a rule-based SWOT (strengths, weaknesses, opportunities, threats) analysis.

The tools exist in four copies, each with its own small differences:

- `financial_app_clean.py` reads Yahoo's quote-summary document itself;
- `simple_app.py` and `standalone_tools.py` read yfinance's flat `info` dictionary;
- the `financial_agent` package holds the fourth copy.

The front ends are a Gradio page per app, a chat router in the clean app
(`smart_agent`) and a chat panel in the package's UI (`chat_with_agent`,
falling back to `_fallback_response` when there is no language model).

This model keeps the decision logic and the text builders. It leaves out the
network and the rendering of numbers.

| file | module | what it models |
|---|---|---|
| py.dfy | `Py` | Python values (number, bool, str, None, dict in insertion order, list), raised exceptions as `Result.Raise`, `dict.get`, truthiness, `isinstance(x, (int, float))` (true for bools), and a `Render` record of functions for number, date and exception text |
| strings.dfy | `Strings` | `upper`/`lower`, `split()`, `strip`, substring search, concatenation of `+=` chunks, an order-preserving filter and its lemmas |
| swot.dfy | `Swot` | the SWOT rule table shared by the three app copies, its item datatype, each copy's wording, and the numbered-section report builder |
| news.dfy | `News` | the M&A news filter of the app copies (first 15 items, keyword in the lower-cased title) and the numbered listing of the first 5 |
| clean_app.dfy | `CleanApp` | `financial_app_clean.py`: the nested `_get_value`, the market-cap label, the metrics dispatch, and the M&A and SWOT tools over a fetched document |
| smart_agent.dfy | `SmartAgent` | `financial_app_clean.py`: `smart_agent` as written (company-name lookup, ticker candidates, keyword precedence), the same router with the candidate filter corrected (see Findings), and `analyze_company` |
| info_tools.dfy | `InfoTools` | the three tools of `simple_app.py` and `standalone_tools.py` over the `info` dictionary, including the TypeErrors their bare comparisons raise |
| simple_app.dfy | `SimpleApp` | `analyze_company` of `simple_app.py` |
| sectors.dfy | `Sectors` | `POPULAR_TICKERS` and `update_companies`; the three front ends hold the same table and the same function |
| financial_metrics.dfy | `FinancialMetrics` | `financial_agent/tools/financial_metrics.py`: the metric tables, the magnitude buckets, the recursive `_format_dict`, the `metrics_type` dispatch |
| ma_analyzer.dfy | `MaAnalyzer` | `financial_agent/tools/ma_analyzer.py`: peers, `_search_ma_news`, `_analyze_ma_trends`, and the report of `__call__` |
| swot_analyzer.dfy | `SwotAnalyzer` | `financial_agent/tools/swot_analyzer.py`: `_gather_company_data`, `_generate_swot_from_data`, `_format_swot_report` and `__call__` |
| analyst_ui.dfy | `AnalystUi` | `financial_agent/ui/app.py`: the `get_*` guards, `_fallback_response`, `chat_with_agent` (a class whose history is updated in place) and `run_analysis` |

Every report is built as in the source, by `+=` on a string.

- Loops that append (the numbered sections, the news filters, `_format_dict`,
  the SWOT list builders) are methods.
- Each such method is proved equal to a function on its inputs.
- The properties are proved about those functions.

A number is a `real`. Python's int and float are one case, and `bool` is
a case of its own that still counts as a number where `isinstance` says so.

## Model

| member | source | states |
|---|---|---|
| CleanApp.Leaf | financial_app_clean.py:95-97 | a dict leaf gives its 'raw', else its 'fmt', else the default; None gives the default; any other value is returned as is |
| CleanApp.EmptyDescends | financial_app_clean.py:88-93 | walking any key path from an empty dict ends in the default |
| CleanApp.DescendFollowsPath | financial_app_clean.py:87-97 | `_get_value` answers the leaf rule applied to the node the keys name when every step is a dict holding the key, and the default otherwise (a missing key or a non-dict intermediate) |
| CleanApp.GetValue | financial_app_clean.py:87-97 | the extractor's loop computes exactly that walk |
| CleanApp.FlatValue | financial_app_clean.py:256-261 | the one-key `_get_value` of the M&A and SWOT tools raises exactly when the section is not a dict |
| CleanApp.FlatAgreesWithNested | financial_app_clean.py:256-261 | on a dict section, the one-key extractor agrees with the nested one on the one-key path |
| CleanApp.CapLabel | financial_app_clean.py:115-121 | "B" iff a number above 1e9, "M" iff a number in (0, 1e9], "N/A" iff not a number or at most 0; the three cases are exhaustive and disjoint and carry the cap |
| CleanApp.MetricsTypeDispatch | financial_app_clean.py:71-85 | every type but "ratios" gives the summary report; an empty fetched document gives the could-not-fetch error whatever the type |
| CleanApp.MaTool | financial_app_clean.py:209-254 | the M&A tool's loops produce the report function: heading, the kept news of the first 15 items listed up to 5, or the no-news text, or the error text |
| CleanApp.SwotTool | financial_app_clean.py:267-375 | the SWOT tool's loops produce the report: heading, the four numbered sections from the rule table, or the error text |
| Swot.UpsideAboveTen | standalone_tools.py:233-234 | when the target exceeds 1.1 times a positive current price, the computed upside exceeds 10 percent |
| Swot.NumberedLines | financial_app_clean.py:310-311 | one line per item, the i-th numbered i+1, in list order |
| Swot.AppendNumbered | financial_app_clean.py:310-311 | the enumerate loop appends exactly the numbered lines |
| Swot.AppendSection | financial_app_clean.py:313-332 | a section is the heading, the dash rule and the numbered lines |
| Swot.AppendBody | financial_app_clean.py:288-368 | the four sections are appended in the order strengths, weaknesses, opportunities, threats |
| Swot.Strengths | financial_app_clean.py:298-308 | never empty; it is exactly the fallback "Established market presence" iff no strength rule fired |
| Swot.Weaknesses | financial_app_clean.py:321-329 | never empty; it is exactly the fallback "Limited public data available" iff no weakness rule fired |
| Swot.Opportunities | financial_app_clean.py:338-347 | 1 to 3 items (4 with the standalone upside rule), always ending with "Leverage position in {industry}" |
| Swot.Threats | financial_app_clean.py:356-365 | 2 to 4 items, always ending with the competition item followed by the market-volatility item |
| Swot.StrengthRules | financial_app_clean.py:298-305 | each strength is present iff its value is a number above its bar (margin and ROE 0.15, current ratio 1.5, growth 0.1) |
| Swot.WeaknessRules | financial_app_clean.py:321-326 | high leverage iff debt/equity > 2.0; low liquidity iff 0 < current ratio < 1.0; high P/E iff P/E > 30 |
| Swot.OpportunityAndThreatRules | financial_app_clean.py:339-362 | expansion iff growth > 0; undervaluation iff 0 < PEG < 1.0; high beta iff beta > 1.5; elevated debt iff debt/equity > 1.5 |
| Swot.UpsideRule | standalone_tools.py:231-235 | an upside item appears iff the copy has the rule, current price > 0 and target > 1.1 times current; its percentage exceeds 10 |
| Swot.RulesConsistent | financial_app_clean.py:302-362 | the healthy-liquidity strength and the low-liquidity weakness never both appear; the high-leverage weakness implies the elevated-debt threat |
| Swot.CollectStrengths | financial_app_clean.py:292-308 | the append steps build exactly the strengths list |
| Swot.CollectWeaknesses | financial_app_clean.py:317-329 | the append steps build exactly the weaknesses list |
| Swot.CollectOpportunities | standalone_tools.py:225-237 | the append steps build exactly the opportunities list |
| Swot.CollectThreats | financial_app_clean.py:356-365 | the append steps build exactly the threats list |
| News.KeptRaises | financial_app_clean.py:231-235 | the loop raises iff some item's title cannot be read |
| News.KeptIsFilterOf | financial_app_clean.py:231-235 | when it does not raise, the loop's list equals the generic filter of the items by "the lower-cased title contains a keyword" |
| News.KeptIsFilter | financial_app_clean.py:231-235 | the filter succeeds iff every title can be read; its list equals the keyword filter of the items, an order-preserving subsequence holding exactly the items whose lower-cased title contains a keyword |
| News.KeptStops | financial_app_clean.py:231-235 | after an item whose title cannot be read, later items change nothing (the exception propagates) |
| News.FilterNews | financial_app_clean.py:231-235 | the loop computes the filter over the first 15 items |
| News.KeptBound | simple_app.py:135-139 | at most 15 items are kept |
| News.Entries | financial_app_clean.py:239-246 | when the listing succeeds it has one text per item |
| News.EntriesOk | financial_app_clean.py:239-246 | the listing succeeds iff every item can be listed |
| News.EntriesInOrder | financial_app_clean.py:239-246 | the i-th text is the text of the i-th item under number i+1 |
| News.EntriesStop | financial_app_clean.py:239-246 | after an item that cannot be listed, the later items change nothing |
| News.EntriesGrow | financial_app_clean.py:239-246 | listing one more item appends its text, or stops at its exception |
| News.ListingOfFirst | standalone_tools.py:147 | listing `ma_news[:5]` shows min(n, 5) items, the first ones, numbered from 1 |
| News.AppendEntry | financial_app_clean.py:240-246 | the `+=` steps for one item emit its text: title, publisher, the date only when the publish time is truthy, link |
| News.AppendListing | financial_app_clean.py:239-246 | the enumerate loop emits the listing |
| News.AppendNewsSection | financial_app_clean.py:237-249 | the news part is the count and the listing when something was kept, the no-news text otherwise |
| SmartAgent.FirstCompanyNone | financial_app_clean.py:456-460 | no company iff no stripped word is a key |
| SmartAgent.FirstCompanySome | financial_app_clean.py:456-460 | a company found is the ticker of a stripped word that is a key, with no key among the words before it |
| SmartAgent.FirstCompanyMeans | financial_app_clean.py:456-460 | no company iff no stripped word is a key; otherwise the answer is the ticker of the first stripped word that is a key |
| SmartAgent.GeneralMotorsUnreachable | financial_app_clean.py:447-458 | no whitespace word, stripped, equals the two-word key 'general motors', so that key never matches |
| SmartAgent.FindCompany | financial_app_clean.py:455-460 | the loop with `break` finds exactly the first company |
| SmartAgent.AlphaWords | financial_app_clean.py:452 | every word kept has 2 to 5 characters, all letters |
| SmartAgent.AlphaWordsMeans | financial_app_clean.py:452 | a word is kept iff it is a word of the message with 2 to 5 characters, all letters |
| SmartAgent.StripIsDead | financial_app_clean.py:452 | the source's filter as written equals the filter without the strip, because a word that passes `isalpha` has no punctuation to strip |
| SmartAgent.PunctuatedTickerDropped | financial_app_clean.py:452 | as written, "AAPL?" yields no candidate |
| SmartAgent.Candidates | financial_app_clean.py:452 | the corrected candidates (strip, then test) have 2 to 5 characters, all letters |
| SmartAgent.CandidatesMeans | financial_app_clean.py:452 | a corrected candidate is exactly a stripped word with 2 to 5 letters |
| SmartAgent.PunctuatedTickerFound | financial_app_clean.py:452 | corrected, "AAPL?" yields "AAPL" |
| SmartAgent.CandidatesAsWrittenAreTickers | financial_app_clean.py:451-452 | as written, every candidate from the upper-cased message is 2 to 5 upper-case letters |
| SmartAgent.CandidatesAreTickers | financial_app_clean.py:451-452 | with the corrected filter, every candidate from the upper-cased message is still 2 to 5 upper-case letters |
| SmartAgent.AlphaWordsEmpty | financial_app_clean.py:452 | the as-written filter keeps nothing iff no word has 2 to 5 characters, all letters |
| SmartAgent.Resolve | financial_app_clean.py:451-475 | as written: a company-name hit wins over a token; without one, no ticker iff no word of the upper-cased message has 2 to 5 characters, all letters, else the first such word |
| SmartAgent.ResolveFixed | financial_app_clean.py:451-475 | with the corrected filter: a company-name hit wins; without one, no ticker iff there is no corrected candidate, else the first one |
| SmartAgent.PunctuatedMessage | financial_app_clean.py:451-460 | "AAPL?" splits into the one word "AAPL?" and names no company |
| SmartAgent.PunctuatedTickerHelp | financial_app_clean.py:451-475 | as written, the router finds no ticker in "AAPL?" and answers with the help text |
| SmartAgent.PunctuatedTickerAnalyzed | financial_app_clean.py:451-475 | corrected, the router picks "AAPL" from "AAPL?" and answers with a tool report, not the help text |
| SmartAgent.AnswerNotHelp | financial_app_clean.py:464-478 | a tool answer opens with the banner, so it never equals the help text |
| SmartAgent.SelectTool | financial_app_clean.py:481-502 | SWOT iff a SWOT keyword occurs; M&A iff no SWOT keyword and an M&A keyword; ratios and summary likewise, in that strict precedence |
| SmartAgent.Reply | financial_app_clean.py:429-504 | as written: no ticker (per `Resolve`) gives the help text and no tool runs; otherwise the banner naming ticker and tool, then that tool's report |
| SmartAgent.ReplyFixed | financial_app_clean.py:429-504 | the same answer with the ticker from the corrected filter (`ResolveFixed`) |
| SmartAgent.RunTool | financial_app_clean.py:481-502 | runs the chosen tool and returns its report |
| SmartAgent.Route | financial_app_clean.py:429-504 | `smart_agent` as written computes `Reply` |
| SmartAgent.AnalyzeGuards | financial_app_clean.py:405-419 | an empty ticker gives the enter-ticker prompt; a type other than the three exact names gives "Please select an analysis type"; "Financial Metrics" gives the summary for the upper-cased ticker |
| SmartAgent.AnalyzeIgnoresCase | financial_app_clean.py:410 | the answer does not depend on the case of the ticker |
| InfoTools.CapLabel | simple_app.py:41-45 | "B" iff above 1e9 and "M" otherwise, 0 included, with no "N/A" case; a non-number raises TypeError |
| InfoTools.TruthyPercent | simple_app.py:61-71 | the line raises iff the value is truthy but not a number |
| InfoTools.NaExactlyWhenFalsy | standalone_tools.py:79-81 | the line reads "N/A" exactly when the value is falsy (missing, 0, empty) |
| InfoTools.Recommendation | simple_app.py:81 | `.upper()` succeeds iff the value is a string and gives its upper-case form |
| InfoTools.MetricsTypeDispatch | standalone_tools.py:15-28 | every type but "ratios" gives the summary; the ratio report of a fetched `info` is printed as found |
| InfoTools.MaTool | simple_app.py:116-158 | the M&A tool's loops produce the report function |
| InfoTools.CheckedStrengthList | simple_app.py:182-193 | the strengths block succeeds iff all four values compared are numbers, and then gives the rule-table strengths |
| InfoTools.CheckedWeaknessList | simple_app.py:203-211 | succeeds iff debt/equity, current ratio and P/E are numbers, then gives the rule-table weaknesses |
| InfoTools.CheckedOpportunityList | standalone_tools.py:225-237 | succeeds iff growth, PEG and (with the upside rule) the current price and, when positive, the target are numbers; then gives the rule-table opportunities |
| InfoTools.CheckedThreatList | simple_app.py:235-242 | succeeds iff beta and debt/equity are numbers, then gives the rule-table threats |
| InfoTools.SwotListsRaise | standalone_tools.py:186-253 | the SWOT block raises iff a compared value is not a number; otherwise it gives the four rule-table lists |
| InfoTools.CheckedStrengths | simple_app.py:182-193 | the append steps compute the checked strengths |
| InfoTools.CheckedWeaknesses | simple_app.py:203-211 | the append steps compute the checked weaknesses |
| InfoTools.CheckedOpportunities | standalone_tools.py:225-237 | the append steps compute the checked opportunities |
| InfoTools.CheckedThreats | standalone_tools.py:246-253 | the append steps compute the checked threats |
| InfoTools.SwotTool | standalone_tools.py:169-268 | the SWOT tool's loops produce the report function |
| SimpleApp.AnalyzeGuards | simple_app.py:275-289 | an empty ticker gives the enter-ticker prompt; any type other than the three exact names gives "Please select an analysis type" |
| SimpleApp.AnalyzeIgnoresCase | simple_app.py:280 | the answer does not depend on the case of the ticker |
| Sectors.UpdateCompanies | simple_app.py:292-296 | a falsy sector gives empty choices; a sector in the table gives its list; the value is always reset; an unknown sector raises KeyError |
| Sectors.ChoicesAreTickers | financial_agent/ui/app.py:17-24 | every offered company is 1 to 5 upper-case letters, unchanged by upper-casing |
| Sectors.TableTickers | financial_agent/ui/app.py:17-24 | each sector's list in the table is well formed |
| FinancialMetrics.MagnitudeOf | financial_agent/tools/financial_metrics.py:170-177 | exactly one bucket: B iff abs(v) > 1e9, M iff 1e6 < abs(v) <= 1e9, grouped iff 1000 < abs(v) <= 1e6, plain otherwise; the scaled figure times its unit is v |
| FinancialMetrics.ScaledFigureBounds | financial_agent/tools/financial_metrics.py:170-173 | a figure in billions has magnitude above 1; a figure in millions lies in (1, 1000] |
| FinancialMetrics.LeafText | financial_agent/tools/financial_metrics.py:169-179 | a bool prints as True/False and is never number-formatted; a string prints as is |
| FinancialMetrics.FormatDictMethod | financial_agent/tools/financial_metrics.py:160-181 | the recursive loop computes `FormatDict` |
| FinancialMetrics.Printed | financial_agent/tools/financial_metrics.py:165-179 | each outline line prints as two spaces per level, its text and a newline |
| FinancialMetrics.FormatIsOutline | financial_agent/tools/financial_metrics.py:160-181 | the formatted text is the printed outline of the dict: a nested dict's key line at its level, then its contents one level deeper |
| FinancialMetrics.OutlineShape | financial_agent/tools/financial_metrics.py:163-179 | one output line per key in the tree, none above the starting indent |
| FinancialMetrics.FlatOutline | financial_agent/tools/financial_metrics.py:179 | for a flat dict, line i is the title-cased key with underscores as spaces, then its value |
| FinancialMetrics.Table | financial_agent/tools/financial_metrics.py:44-64 | one entry per field in order, holding the info value when present and "N/A" when absent |
| FinancialMetrics.FinancialRatios | financial_agent/tools/financial_metrics.py:70-99 | the five ratio groups, each a table of its fields |
| FinancialMetrics.SummaryLines | financial_agent/tools/financial_metrics.py:44-64 | the summary prints one line per field, the info value or "N/A" |
| FinancialMetrics.HistoricalData | financial_agent/tools/financial_metrics.py:101-118 | empty history iff the single error entry; otherwise 7 entries starting with the period |
| FinancialMetrics.Metrics | financial_agent/tools/financial_metrics.py:135-149 | unknown type iff none of the four names; "detailed" holds exactly summary, ratios and historical_1y |
| FinancialMetrics.MetricsCallCases | financial_agent/tools/financial_metrics.py:131-158 | an unknown type gives "Error: Unknown metrics_type"; a failed fetch gives the fetch error; otherwise the heading and the formatted dict |
| FinancialMetrics.MetricsTool | financial_agent/tools/financial_metrics.py:120-158 | the tool computes `MetricsCall` |
| MaAnalyzer.PeerCompanies | financial_agent/tools/ma_analyzer.py:37-59 | the single-entry error iff the fetch raises; otherwise one entry whose ticker is the upper-cased input, with the info's sector and industry |
| MaAnalyzer.ArticleFor | financial_agent/tools/ma_analyzer.py:90-98 | a kept article's summary has at most 300 characters |
| MaAnalyzer.Step | financial_agent/tools/ma_analyzer.py:85-98 | one item succeeds iff its title and summary can be read and, when it is M&A news, its date can be formatted; it yields its article iff it is M&A news |
| MaAnalyzer.ScanIsFilter | financial_agent/tools/ma_analyzer.py:84-98 | the loop succeeds iff every item can be read and every M&A item dated |
| MaAnalyzer.ScanYieldsDeals | financial_agent/tools/ma_analyzer.py:84-98 | on success the articles are those of the M&A items, in input order |
| MaAnalyzer.NewsShape | financial_agent/tools/ma_analyzer.py:84-100 | at most 10 articles, one per M&A item among the first 10, each summary at most 300 characters |
| MaAnalyzer.ScanNews | financial_agent/tools/ma_analyzer.py:84-98 | the loop computes the scan |
| MaAnalyzer.SearchMaNewsMethod | financial_agent/tools/ma_analyzer.py:61-103 | `_search_ma_news` computes `SearchMaNews`, the error entry included |
| MaAnalyzer.TrendEntries | financial_agent/tools/ma_analyzer.py:122-125 | one entry per article, numbered from 1 in order |
| MaAnalyzer.TrendsQuoteFirstFive | financial_agent/tools/ma_analyzer.py:122-125 | the trend context lists the first min(n, 5) articles, summaries cut to 200 characters |
| MaAnalyzer.AnalyzeMaTrends | financial_agent/tools/ma_analyzer.py:105-154 | the loop computes the trends text; without a client it is the context unchanged |
| MaAnalyzer.ArticleEntries | financial_agent/tools/ma_analyzer.py:192-197 | one entry per article, numbered from 1 in order |
| MaAnalyzer.ReportFirst | financial_agent/tools/ma_analyzer.py:182 | every report starts with "M", so it cannot be mistaken for an error text |
| MaAnalyzer.MaCallError | financial_agent/tools/ma_analyzer.py:170-173 | the answer starts with "Error: " iff the peer lookup failed |
| MaAnalyzer.ReportNoNews | financial_agent/tools/ma_analyzer.py:190-210 | the report is the heading plus the three-reason no-news text iff the news search failed or found nothing |
| MaAnalyzer.MaCallUpperCases | financial_agent/tools/ma_analyzer.py:167 | the answer does not depend on the case of the ticker |
| MaAnalyzer.MaTool | financial_agent/tools/ma_analyzer.py:156-215 | the tool's loops produce the report function |
| SwotAnalyzer.CheckNews | financial_agent/tools/swot_analyzer.py:74-80 | succeeds iff every news item is a dict; otherwise the first non-dict raises the missing-`get` error |
| SwotAnalyzer.Gather | financial_agent/tools/swot_analyzer.py:35-83 | succeeds iff info and news are fetched, the description can be sliced and the first 5 news items are dicts; a fetch error is passed on; name, sector, industry and rating are the info values or "N/A" |
| SwotAnalyzer.OrElse | financial_agent/tools/swot_analyzer.py:158-166 | the list is never empty; it is exactly the fallback iff nothing was appended |
| SwotAnalyzer.Strengths | financial_agent/tools/swot_analyzer.py:101-114 | never empty; exactly the fallback iff no number rule fired and the rating is not buy or strong buy |
| SwotAnalyzer.Weaknesses | financial_agent/tools/swot_analyzer.py:117-127 | never empty; exactly the fallback iff none of the four weakness rules fired |
| SwotAnalyzer.Opportunities | financial_agent/tools/swot_analyzer.py:130-143 | 1 to 4 items, ending with the leverage item, so the "Market expansion" fallback never appears |
| SwotAnalyzer.Threats | financial_agent/tools/swot_analyzer.py:146-156 | 2 to 5 items, ending with the competition item then the macroeconomic item; the threats fallback never appears |
| SwotAnalyzer.Classify | financial_agent/tools/swot_analyzer.py:85-168 | all four lists are non-empty |
| SwotAnalyzer.StrengthRules | financial_agent/tools/swot_analyzer.py:101-111 | each strength is present iff its value is a number above its bar; a non-number such as "N/A" fires nothing |
| SwotAnalyzer.PositiveRule | financial_agent/tools/swot_analyzer.py:113-114 | the positive-sentiment strength is present iff the rating is "buy" or "strong buy" |
| SwotAnalyzer.WeaknessRules | financial_agent/tools/swot_analyzer.py:117-127 | high leverage iff debt/equity > 2.0; low liquidity iff current ratio < 1.0 (no lower bound); high P/E iff > 30; low operating margin iff < 0.05 |
| SwotAnalyzer.OpportunityRules | financial_agent/tools/swot_analyzer.py:130-134 | expansion iff growth > 0; undervaluation iff PEG < 1.0 (no lower bound) |
| SwotAnalyzer.ThreatRules | financial_agent/tools/swot_analyzer.py:146-150 | high beta iff beta > 1.5; elevated debt iff debt/equity > 1.5 |
| SwotAnalyzer.NegativeRule | financial_agent/tools/swot_analyzer.py:152-153 | the negative-sentiment threat is present iff the rating is sell, strong sell or underperform |
| SwotAnalyzer.UpsideRule | financial_agent/tools/swot_analyzer.py:136-141 | the upside item is present iff both prices are numbers, current > 0 and target > 1.1 times current; its percentage exceeds 10 |
| SwotAnalyzer.RulesConsistent | financial_agent/tools/swot_analyzer.py:113-153 | positive and negative sentiment never both appear; the high-leverage weakness implies the elevated-debt threat |
| SwotAnalyzer.NothingFires | financial_agent/tools/swot_analyzer.py:101-166 | when no compared field is a number and the rating is neither positive nor negative, the lists are exactly the two fallbacks, the leverage item, and the two closing threats |
| SwotAnalyzer.EmptyGather | financial_agent/tools/swot_analyzer.py:35-81 | an empty `info` with no news gathers to a company whose every field is "N/A" |
| SwotAnalyzer.EmptyInfo | financial_agent/tools/swot_analyzer.py:44-166 | an empty `info` gives the four fallback or trailer lists with industry "N/A" |
| SwotAnalyzer.CollectStrengths | financial_agent/tools/swot_analyzer.py:101-114 | the append steps build exactly the strengths rules' list |
| SwotAnalyzer.CollectWeaknesses | financial_agent/tools/swot_analyzer.py:117-127 | the append steps build exactly the weaknesses rules' list |
| SwotAnalyzer.CollectOpportunities | financial_agent/tools/swot_analyzer.py:130-143 | the append steps build exactly the opportunities rules' list |
| SwotAnalyzer.CollectThreats | financial_agent/tools/swot_analyzer.py:146-156 | the append steps build exactly the threats rules' list |
| SwotAnalyzer.GenerateSwot | financial_agent/tools/swot_analyzer.py:85-168 | `_generate_swot_from_data` computes `Classify` |
| SwotAnalyzer.FormatSwotReport | financial_agent/tools/swot_analyzer.py:170-215 | the header, STRENGTHS, WEAKNESSES, OPPORTUNITIES, THREATS in that order, each numbered 1..n in list order, then the note |
| SwotAnalyzer.ReportFirst | financial_agent/tools/swot_analyzer.py:175 | every report starts with "S", so it differs from the error text |
| SwotAnalyzer.SwotCallError | financial_agent/tools/swot_analyzer.py:231-245 | the answer starts with "Error generating SWOT analysis for " iff gathering the data failed; no report is produced then |
| SwotAnalyzer.SwotTool | financial_agent/tools/swot_analyzer.py:217-245 | the tool's loops produce the answer function |
| AnalystUi.GuardsIgnoreCase | financial_agent/ui/app.py:44-63 | an empty ticker gives the prompt for all three `get_*`; otherwise the tool sees the upper-cased ticker, so case does not matter |
| AnalystUi.CandidatesMeans | financial_agent/ui/app.py:105-106 | a candidate is exactly an upper-cased word of at most 5 letters, kept in order; each has 1 to 5 upper-case letters (no lower bound of 2) |
| AnalystUi.SelectTool | financial_agent/ui/app.py:122-128 | SWOT iff a SWOT keyword occurs; M&A iff no SWOT keyword and an M&A keyword; the summary otherwise |
| AnalystUi.FallbackCases | financial_agent/ui/app.py:100-128 | no candidate gives the help text; otherwise the first candidate goes to the tool the precedence picks |
| AnalystUi.FirstShortWordIsTicker | financial_agent/ui/app.py:105-119 | a message whose first word is 1 to 5 letters uses that word, upper-cased, as the ticker |
| AnalystUi.HelpExampleTicker | financial_agent/ui/app.py:116 | the help text's own example "What are the financial metrics for Microsoft?" picks the ticker "WHAT" |
| AnalystUi.ChatAppendsTwo | financial_agent/ui/app.py:76-98 | an empty message leaves the history unchanged; any other appends exactly a user entry, then an assistant entry, keeping the old entries |
| AnalystUi.ReplyCases | financial_agent/ui/app.py:82-96 | no agent gives the fallback; an agent exception, or a response that is not a dict, gives "Error: ..."; a dict response gives its "output" entry, or "No response generated" without one |
| AnalystUi.ChatLog.constructor | financial_agent/ui/app.py:65 | the chat log starts from the given history |
| AnalystUi.ChatLog.ChatWithAgent | financial_agent/ui/app.py:65-98 | the history is updated in place to `Chat(old history, message)` and "" is returned to clear the input |
| AnalystUi.RunAnalysis | financial_agent/ui/app.py:216-225 | an empty ticker gives the select-or-enter prompt; otherwise nothing (None) iff the type is none of the three names |

## Left out

- Fetching: `get_stock_data`, `get_stock_news`, every `yf.Ticker(...)`, `.info`, `.news` and `.history` are network I/O. Their answers are parameters: a document, a news list, or the exception raised (`Result.Raise`).
- `_get_historical_data`: the pandas aggregation of the price history is floating point. Its statistics are an abstract `Stats` value; the model keeps only the empty-history error entry and the seven keys.
- The text of formatted numbers (`:.2f`, `:.1%`, `:,.2f`), of `datetime.fromtimestamp(...).strftime` and of `str(e)`: these depend on floating point and on the time library. They are functions of the `Render` record, which the model never inspects.
- The Gradio layout, event wiring, `set_ticker` and `launch` calls, and the app's module-level tool instances are UI and are not modelled.
- `financial_agent/agent/agent_config.py`: the LangChain agent is a language model. `agent.query` is an arbitrary function from message to response or exception.
- The setup scripts and `test_agent.py` are installation glue and live smoke tests.
- `Strings.Upper`, `Strings.Lower`, `Strings.IsAlpha`: ASCII only; Python's Unicode case mapping and `isalpha` accept more characters.
- FinancialMetrics.Metrics: "detailed" fetches `info` twice in the source; the model reads one `info` value for both.
- MaAnalyzer.AnalyzeMaTrends: with a language-model client the source returns a fixed placeholder followed by the context; the model keeps that placeholder. The `except` around it cannot be reached.
- MaAnalyzer.PeerCompanies: the one-entry error list of `_get_peer_companies` and `_search_ma_news` is a datatype case rather than a dict holding "error".
- SwotAnalyzer.Classify: the `'the industry'` default and the `ticker.upper()` name default cannot be reached, because the gathered data always holds those keys. The model uses the gathered values directly.
- SwotAnalyzer.SwotCall: the outer `except` of `__call__` cannot be reached once gathering has succeeded; the model has no such path.
- Swot.UpsideRule, SwotAnalyzer.UpsideRule and the other threshold rules of `Swot` and `SwotAnalyzer`: prices and ratios are exact reals, not IEEE doubles. Near a bar the source can differ: with current 100 and target 110.00000000000001, `target > current * 1.1` is false in the source (1.1 * 100 rounds above 110) but true in the model.
- News.EntryText, MaAnalyzer.Dated, MaAnalyzer.Step: any number is a valid publish time. In the source `datetime.fromtimestamp` also raises (OverflowError, OSError, ValueError) for a time out of the platform's range or for NaN; the model has no such error path.
- Strings.Split, Strings.IsSpace: only the six ASCII whitespace characters separate words. Python's `str.split()` also splits on other Unicode whitespace (U+001C to U+001F, U+0085, U+00A0, U+2000 to U+200A and more).
- Sectors.TableTickers: that the six sector lists are pairwise disjoint is not proved.
- Sectors.UpdateCompanies: the three front ends define the same table and the same function. One definition models all three.

## Findings

| source | as written | input that shows it | evidently intended | confidence | as-written member | corrected member |
|---|---|---|---|---|---|---|
| financial_app_clean.py:452 | the candidate filter tests `w.isalpha()` before `w.strip('.,!?')`; a word with trailing punctuation fails `isalpha`, so the strip never changes a kept word | "AAPL?" gives no candidate, so the router answers with the help text | strip the punctuation, then test the stripped word | not executed | SmartAgent.StripIsDead, SmartAgent.PunctuatedTickerDropped, SmartAgent.Resolve, SmartAgent.Route, SmartAgent.PunctuatedTickerHelp | SmartAgent.Candidates, SmartAgent.CandidatesMeans, SmartAgent.PunctuatedTickerFound, SmartAgent.ResolveFixed, SmartAgent.ReplyFixed, SmartAgent.PunctuatedTickerAnalyzed |
