/** The three tools of the two apps that read yfinance's flat `info`
    dictionary (simple_app.py and standalone_tools.py). The two files hold the
    same tools; the standalone copy adds a dividend section, the target-price
    rule, a third no-news line and a closing note, and words a few entries
    differently. Unlike the other copies, these compare raw values with `>`
    and `<`, so a value that is not a number raises TypeError, which the tool
    reports in place of the report. */
module InfoTools {
  import opened Py
  import opened Strings
  import opened Swot
  import News
  import CleanApp

  /** Which of the two files is running. */
  datatype App = SimpleApp | Standalone

  /** How the app's copy of the write-up is worded. */
  function CopyOf(app: App): Copy {
    if app == SimpleApp then AppSimple else AppStandalone
  }

  /** What `yf.Ticker(ticker)` offers: the `info` dictionary (or the exception
      its fetch raised) and the `news` list. */
  datatype Ticker = Ticker(info: Result<seq<Entry>>, news: seq<Value>)

  const NA: Value := Text("N/A")
  const Zero: Value := Num(0.0)

  /** `f"{info.get(key, 'N/A')}"`. */
  function Field(info: seq<Entry>, key: string, r: Render): string {
    Str(Get(info, key, NA), r)
  }

  // ---------------------------------------------------------------------
  // FinancialMetricsTool

  /** `market_cap > 1_000_000_000` on `info.get('marketCap', 0)`: "B" above
      1e9 and "M" for every other number, a cap of 0 or less included; a cap
      that is not a number raises. */
  function CapLabel(cap: Value): (c: Result<CleanApp.Cap>)
    ensures c.Ok? <==> IsNumber(cap)
    ensures c.Ok? ==> !c.value.NotAvailable? && c.value.x == AsReal(cap)
    ensures c.Ok? ==> (c.value.Billions? <==> AsReal(cap) > 1000000000.0)
  {
    var above :- Greater(cap, 1000000000.0);
    if above then Ok(CleanApp.Billions(AsReal(cap))) else Ok(CleanApp.Millions(AsReal(cap)))
  }

  /** `f"  {title}: {v * 100:.2f}%\n" if v else f"  {title}: N/A\n"`: the
      value is formatted only when it is truthy, and formatting anything but
      a number raises. */
  function TruthyPercent(title: string, v: Value, r: Render): (line: Result<string>)
    ensures line.Raise? <==> Truthy(v) && !IsNumber(v)
  {
    if !Truthy(v) then Ok(CleanApp.PercentLine(title, v, false, r))
    else if IsNumber(v) then Ok(CleanApp.PercentLine(title, v, true, r))
    else Raise(Unformattable(v))
  }

  /** The line reads "N/A" exactly when the value is falsy (missing, 0 or
      empty). */
  lemma NaExactlyWhenFalsy(title: string, v: Value, r: Render)
    ensures TruthyPercent(title, v, r) == Ok("  " + title + ": N/A\n") <==> !Truthy(v)
  {
    var head := "  " + title + ": ";
    var na := "  " + title + ": N/A\n";
    assert na == head + "N/A" + "\n";
    if Truthy(v) && IsNumber(v) {
      var number := r.number(Fixed(2), AsReal(v) * 100.0) + "%";
      var line := head + number + "\n";
      assert line == CleanApp.PercentLine(title, v, true, r);
      assert line[|line| - 2] == number[|number| - 1] == '%';
      assert na[|na| - 2] == 'A';
    }
  }

  /** `info.get('recommendationKey', 'N/A').upper()`: only a string has
      `upper`. */
  function Recommendation(rec: Value): (s: Result<string>)
    ensures s.Ok? <==> rec.Text?
    ensures s.Ok? ==> s.value == Upper(rec.s)
  {
    if rec.Text? then Ok(Upper(rec.s)) else Raise(NoAttribute(rec, "upper"))
  }

  /** The dividend section of the standalone copy. */
  function Dividend(info: seq<Entry>, r: Render): Result<string> {
    var yield_ :- TruthyPercent("Dividend Yield", Get(info, "dividendYield", Zero), r);
    Ok("Dividend:\n" + yield_ + "  Payout Ratio: " + Field(info, "payoutRatio", r) + "\n\n")
  }

  /** `_get_summary`: the summary report, or the first exception its
      comparisons, number formats or `upper` raise, in source order. */
  function SummaryReport(info: seq<Entry>, ticker: string, app: App, r: Render): Result<string> {
    var cap :- CapLabel(Get(info, "marketCap", Zero));
    var pm :- TruthyPercent("Profit Margin", Get(info, "profitMargins", Zero), r);
    var om :- TruthyPercent("Operating Margin", Get(info, "operatingMargins", Zero), r);
    var rg :- TruthyPercent("Revenue Growth", Get(info, "revenueGrowth", Zero), r);
    var dividend :- if app == Standalone then Dividend(info, r) else Ok("");
    var rec :- Recommendation(Get(info, "recommendationKey", NA));
    var f := (key: string) => Field(info, key, r);
    Ok(Concat([
      "Financial Metrics for " + ticker + "\n",
      Rule() + "\n\n",
      "Company: " + f("longName") + "\n",
      "Sector: " + f("sector") + "\n",
      "Industry: " + f("industry") + "\n\n",
      "Market Cap: " + CleanApp.CapText(cap, r) + "\n",
      "Current Price: $" + f("currentPrice") + "\n",
      "52 Week High: $" + f("fiftyTwoWeekHigh") + "\n",
      "52 Week Low: $" + f("fiftyTwoWeekLow") + "\n\n",
      "Valuation Metrics:\n",
      "  P/E Ratio: " + f("trailingPE") + "\n",
      "  Forward P/E: " + f("forwardPE") + "\n",
      "  Price to Book: " + f("priceToBook") + "\n",
      "  PEG Ratio: " + f("pegRatio") + "\n\n",
      "Profitability:\n",
      pm,
      om,
      "  ROE: " + f("returnOnEquity") + "\n",
      "  ROA: " + f("returnOnAssets") + "\n\n",
      "Growth:\n",
      rg,
      "  Earnings Growth: " + f("earningsGrowth") + "\n\n",
      "Financial Health:\n",
      "  Current Ratio: " + f("currentRatio") + "\n",
      "  Debt to Equity: " + f("debtToEquity") + "\n",
      "  Quick Ratio: " + f("quickRatio") + "\n\n",
      dividend,
      "Analyst Recommendation: " + rec + "\n"]))
  }

  /** `_get_ratios`: every ratio printed as found, "N/A" when absent. */
  function RatiosReport(info: seq<Entry>, ticker: string, r: Render): string {
    var f := (key: string) => Field(info, key, r);
    Concat([
      "Financial Ratios for " + ticker + "\n",
      Rule() + "\n\n",
      "Profitability Ratios:\n",
      "  Gross Margin: " + f("grossMargins") + "\n",
      "  Operating Margin: " + f("operatingMargins") + "\n",
      "  Profit Margin: " + f("profitMargins") + "\n",
      "  ROE: " + f("returnOnEquity") + "\n",
      "  ROA: " + f("returnOnAssets") + "\n\n",
      "Valuation Ratios:\n",
      "  P/E Ratio: " + f("trailingPE") + "\n",
      "  Forward P/E: " + f("forwardPE") + "\n",
      "  PEG Ratio: " + f("pegRatio") + "\n",
      "  Price to Book: " + f("priceToBook") + "\n",
      "  Price to Sales: " + f("priceToSalesTrailing12Months") + "\n\n",
      "Liquidity Ratios:\n",
      "  Current Ratio: " + f("currentRatio") + "\n",
      "  Quick Ratio: " + f("quickRatio") + "\n\n",
      "Leverage Ratios:\n",
      "  Debt to Equity: " + f("debtToEquity") + "\n"])
  }

  function MetricsError(ticker: string, e: PyError, r: Render): string {
    "Error fetching data for " + ticker + ": " + r.error(e)
  }

  /** `FinancialMetricsTool.__call__`: "ratios" gives the ratio report and
      every other type the summary; any exception becomes the error line. */
  function MetricsCall(ticker: string, metricsType: string, t: Ticker, app: App, r: Render): string {
    match t.info
    case Raise(e) => MetricsError(ticker, e, r)
    case Ok(info) =>
      var report := if metricsType == "ratios" then Ok(RatiosReport(info, Upper(ticker), r))
                    else SummaryReport(info, Upper(ticker), app, r);
      match report
      case Ok(s) => s
      case Raise(e) => MetricsError(ticker, e, r)
  }

  /** Only "ratios" changes the report; the ratio report never fails once
      the `info` dictionary is there. */
  lemma MetricsTypeDispatch(ticker: string, metricsType: string, t: Ticker, app: App, r: Render)
    ensures metricsType != "ratios" ==> MetricsCall(ticker, metricsType, t, app, r) == MetricsCall(ticker, "summary", t, app, r)
    ensures t.info.Ok? ==> MetricsCall(ticker, "ratios", t, app, r) == RatiosReport(t.info.value, Upper(ticker), r)
  {
  }

  // ---------------------------------------------------------------------
  // MATool

  /** The text printed when no M&A news is kept. */
  function NoNews(app: App): string {
    if app == SimpleApp then CleanApp.NoNews
    else
      "No recent M&A-related news found.\n"
      + "This could indicate the company is not actively pursuing M&A,\n"
      + "or activities are confidential/pre-announcement.\n"
  }

  /** The heading lines of the M&A report. */
  function MaHeader(info: seq<Entry>, ticker: string, r: Render): string {
    "M&A Activity Analysis for " + ticker + "\n" + (Rule() + "\n\n")
    + ("Company: " + Field(info, "longName", r) + "\n")
    + ("Sector: " + Field(info, "sector", r) + "\n")
    + ("Industry: " + Field(info, "industry", r) + "\n\n")
  }

  /** `MATool.__call__`: the heading, then the kept news of the first 15
      items (at most five listed) or the no-news text; an exception becomes
      the error line. */
  function MaCall(ticker: string, t: Ticker, app: App, r: Render): string {
    match t.info
    case Raise(e) => CleanApp.MaError(ticker, e, r)
    case Ok(info) =>
      var report := (
        var kept :- News.Kept(Take(t.news, News.Window));
        Emitted(MaHeader(info, Upper(ticker), r), News.NewsSection(kept, r, NoNews(app))));
      match report
      case Ok(s) => s
      case Raise(e) => CleanApp.MaError(ticker, e, r)
  }

  method MaTool(ticker: string, t: Ticker, app: App, r: Render) returns (out: string)
    ensures out == MaCall(ticker, t, app, r)
  {
    if t.info.Raise? {
      return CleanApp.MaError(ticker, t.info.error, r);
    }
    var header := MaHeader(t.info.value, Upper(ticker), r);
    var maNews := News.FilterNews(t.news);
    if maNews.Raise? {
      return CleanApp.MaError(ticker, maNews.error, r);
    }
    var res := News.AppendNewsSection(header, maNews.value, r, NoNews(app));
    if res.Raise? {
      return CleanApp.MaError(ticker, res.error, r);
    }
    return res.value;
  }

  // ---------------------------------------------------------------------
  // SWOTTool

  /** The ratios the SWOT tool reads, each `info.get(key, 0)`. */
  function InfoRatios(info: seq<Entry>): Ratios {
    Ratios(profitMargin := Get(info, "profitMargins", Zero),
           roe := Get(info, "returnOnEquity", Zero),
           currentRatio := Get(info, "currentRatio", Zero),
           revenueGrowth := Get(info, "revenueGrowth", Zero),
           operatingMargin := Null,
           debtToEquity := Get(info, "debtToEquity", Zero),
           pe := Get(info, "trailingPE", Zero),
           peg := Get(info, "pegRatio", Zero),
           beta := Get(info, "beta", Zero),
           currentPrice := Get(info, "currentPrice", Zero),
           targetPrice := Get(info, "targetMeanPrice", Zero))
  }

  /** The strengths block: its four comparisons raise, in order, on the
      first value that is not a number; otherwise the block builds the
      strengths of the rule table. */
  function CheckedStrengthList(x: Ratios): (res: Result<seq<Item>>)
    ensures res.Ok? <==>
      IsNumber(x.profitMargin) && IsNumber(x.roe) && IsNumber(x.currentRatio) && IsNumber(x.revenueGrowth)
    ensures res.Ok? ==> res.value == Strengths(x)
  {
    if !IsNumber(x.profitMargin) then Raise(Unorderable(">", x.profitMargin))
    else if !IsNumber(x.roe) then Raise(Unorderable(">", x.roe))
    else if !IsNumber(x.currentRatio) then Raise(Unorderable(">", x.currentRatio))
    else if !IsNumber(x.revenueGrowth) then Raise(Unorderable(">", x.revenueGrowth))
    else Ok(Strengths(x))
  }

  /** The weaknesses block. In `cr < 1.0 and cr > 0` only the first test can
      raise: once it has not, `cr` is a number. */
  function CheckedWeaknessList(x: Ratios): (res: Result<seq<Item>>)
    ensures res.Ok? <==> IsNumber(x.debtToEquity) && IsNumber(x.currentRatio) && IsNumber(x.pe)
    ensures res.Ok? ==> res.value == Weaknesses(x)
  {
    if !IsNumber(x.debtToEquity) then Raise(Unorderable(">", x.debtToEquity))
    else if !IsNumber(x.currentRatio) then Raise(Unorderable("<", x.currentRatio))
    else if !IsNumber(x.pe) then Raise(Unorderable(">", x.pe))
    else Ok(Weaknesses(x))
  }

  /** The opportunities block. With the target-price rule, the target is
      compared only behind a positive current price (`and` stops early). */
  function CheckedOpportunityList(x: Ratios, industry: string, upside: bool): (res: Result<seq<Item>>)
    ensures res.Ok? <==>
      IsNumber(x.revenueGrowth) && IsNumber(x.peg) &&
      (upside ==> IsNumber(x.currentPrice) && (AsReal(x.currentPrice) > 0.0 ==> IsNumber(x.targetPrice)))
    ensures res.Ok? ==> res.value == Opportunities(x, industry, upside)
  {
    if !IsNumber(x.revenueGrowth) then Raise(Unorderable(">", x.revenueGrowth))
    else if !IsNumber(x.peg) then Raise(Unorderable("<", x.peg))
    else if upside && !IsNumber(x.currentPrice) then Raise(Unorderable(">", x.currentPrice))
    else if upside && AsReal(x.currentPrice) > 0.0 && !IsNumber(x.targetPrice) then Raise(Unorderable(">", x.targetPrice))
    else Ok(Opportunities(x, industry, upside))
  }

  /** The threats block. */
  function CheckedThreatList(x: Ratios, industry: string): (res: Result<seq<Item>>)
    ensures res.Ok? <==> IsNumber(x.beta) && IsNumber(x.debtToEquity)
    ensures res.Ok? ==> res.value == Threats(x, industry)
  {
    if !IsNumber(x.beta) then Raise(Unorderable(">", x.beta))
    else if !IsNumber(x.debtToEquity) then Raise(Unorderable(">", x.debtToEquity))
    else Ok(Threats(x, industry))
  }

  /** The four lists of the SWOT tool, or the first TypeError its
      comparisons raise, block by block. */
  function SwotLists(x: Ratios, industry: string, upside: bool): Result<Lists> {
    var s :- CheckedStrengthList(x);
    var w :- CheckedWeaknessList(x);
    var o :- CheckedOpportunityList(x, industry, upside);
    var t :- CheckedThreatList(x, industry);
    Ok(Lists(s, w, o, t))
  }

  /** The SWOT tool fails exactly when a value it compares is not a number
      (the target price only counts behind a positive current price), and
      otherwise builds the same lists as the guarded rule table. */
  lemma SwotListsRaise(x: Ratios, industry: string, upside: bool)
    ensures SwotLists(x, industry, upside).Ok? <==>
      IsNumber(x.profitMargin) && IsNumber(x.roe) && IsNumber(x.currentRatio) && IsNumber(x.revenueGrowth) &&
      IsNumber(x.debtToEquity) && IsNumber(x.pe) && IsNumber(x.peg) && IsNumber(x.beta) &&
      (upside ==> IsNumber(x.currentPrice) && (AsReal(x.currentPrice) > 0.0 ==> IsNumber(x.targetPrice)))
    ensures SwotLists(x, industry, upside).Ok? ==> SwotLists(x, industry, upside).value == Classified(x, industry, upside)
  {
  }

  /** The strengths block with its raising comparisons. */
  method CheckedStrengths(x: Ratios) returns (res: Result<seq<Item>>)
    ensures res == CheckedStrengthList(x)
  {
    var strengths := [];
    var margin :- Greater(x.profitMargin, MarginBar);
    if margin {
      strengths := strengths + [StrongMargin(x.profitMargin)];
    }
    var roe :- Greater(x.roe, RoeBar);
    if roe {
      strengths := strengths + [ExcellentRoe(x.roe)];
    }
    var liquid :- Greater(x.currentRatio, LiquidityBar);
    if liquid {
      strengths := strengths + [HealthyLiquidity(x.currentRatio)];
    }
    var growth :- Greater(x.revenueGrowth, GrowthBar);
    if growth {
      strengths := strengths + [StrongGrowth(x.revenueGrowth)];
    }
    assert strengths == When(Above(x.profitMargin, MarginBar), StrongMargin(x.profitMargin))
      + When(Above(x.roe, RoeBar), ExcellentRoe(x.roe))
      + When(Above(x.currentRatio, LiquidityBar), HealthyLiquidity(x.currentRatio))
      + When(Above(x.revenueGrowth, GrowthBar), StrongGrowth(x.revenueGrowth));
    if strengths == [] {
      strengths := strengths + [EstablishedPresence];
    }
    assert IsNumber(x.profitMargin) && IsNumber(x.roe) && IsNumber(x.currentRatio) && IsNumber(x.revenueGrowth);
    assert CheckedStrengthList(x) == Ok(Strengths(x));
    assert strengths == Strengths(x);
    return Ok(strengths);
  }

  /** The weaknesses block. `cr < 1.0 and cr > 0`: once `cr < 1.0` has not
      raised, `cr` is a number and `cr > 0` is a plain test. */
  method CheckedWeaknesses(x: Ratios) returns (res: Result<seq<Item>>)
    ensures res == CheckedWeaknessList(x)
  {
    var weaknesses := [];
    var leveraged :- Greater(x.debtToEquity, DebtWeaknessBar);
    if leveraged {
      weaknesses := weaknesses + [HighLeverage(x.debtToEquity)];
    }
    var illiquid :- Less(x.currentRatio, IlliquidityBar);
    if illiquid && AsReal(x.currentRatio) > 0.0 {
      weaknesses := weaknesses + [LowLiquidity(x.currentRatio)];
    }
    var expensive :- Greater(x.pe, PeBar);
    if expensive {
      weaknesses := weaknesses + [HighPe(x.pe)];
    }
    assert weaknesses == When(Above(x.debtToEquity, DebtWeaknessBar), HighLeverage(x.debtToEquity))
      + When(Between(x.currentRatio, 0.0, IlliquidityBar), LowLiquidity(x.currentRatio))
      + When(Above(x.pe, PeBar), HighPe(x.pe));
    if weaknesses == [] {
      weaknesses := weaknesses + [LimitedData];
    }
    assert IsNumber(x.debtToEquity) && IsNumber(x.currentRatio) && IsNumber(x.pe);
    assert CheckedWeaknessList(x) == Ok(Weaknesses(x));
    assert weaknesses == Weaknesses(x);
    return Ok(weaknesses);
  }

  /** The opportunities block, with the target-price rule when `upside`. */
  method CheckedOpportunities(x: Ratios, industry: string, upside: bool) returns (res: Result<seq<Item>>)
    ensures res == CheckedOpportunityList(x, industry, upside)
  {
    var opportunities := [];
    var growing :- Greater(x.revenueGrowth, 0.0);
    if growing {
      opportunities := opportunities + [ExpandMarkets];
    }
    var cheap :- Less(x.peg, PegBar);
    if cheap && AsReal(x.peg) > 0.0 {
      opportunities := opportunities + [Undervaluation];
    }
    if upside {
      var priced :- Greater(x.currentPrice, 0.0);
      if priced {
        var current := AsReal(x.currentPrice);
        var above :- Greater(x.targetPrice, current * UpsideFactor);
        if above {
          var target := AsReal(x.targetPrice);
          opportunities := opportunities + [Upside((target - current) / current * 100.0)];
        }
      }
    }
    opportunities := opportunities + [LeveragePosition(industry)];
    assert CheckedOpportunityList(x, industry, upside) == Ok(Opportunities(x, industry, upside));
    assert opportunities == Opportunities(x, industry, upside);
    return Ok(opportunities);
  }

  /** The threats block. */
  method CheckedThreats(x: Ratios, industry: string) returns (res: Result<seq<Item>>)
    ensures res == CheckedThreatList(x, industry)
  {
    var threats := [];
    var volatile :- Greater(x.beta, BetaBar);
    if volatile {
      threats := threats + [HighBeta(x.beta)];
    }
    var indebted :- Greater(x.debtToEquity, DebtThreatBar);
    if indebted {
      threats := threats + [ElevatedDebt];
    }
    assert threats == When(Above(x.beta, BetaBar), HighBeta(x.beta))
      + When(Above(x.debtToEquity, DebtThreatBar), ElevatedDebt);
    threats := threats + [Competition(industry), MarketVolatility];
    assert IsNumber(x.beta) && IsNumber(x.debtToEquity);
    assert CheckedThreatList(x, industry) == Ok(Threats(x, industry));
    return Ok(threats);
  }

  /** The heading of the SWOT report. */
  function SwotHeader(info: seq<Entry>, ticker: string, r: Render): string {
    "SWOT Analysis for " + ticker + "\n" + (Rule() + "\n\n")
    + ("Company: " + Field(info, "longName", r) + "\n")
    + ("Sector: " + Field(info, "sector", r) + "\n")
    + ("Industry: " + Field(info, "industry", r) + "\n\n")
    + (Rule() + "\n\n")
  }

  /** The closing rule, and the standalone copy's note. */
  function Trailer(app: App): string {
    "\n" + Rule() + "\n"
    + (if app == Standalone then "Note: This analysis is based on publicly available financial data.\n" else "")
  }

  /** `SWOTTool.__call__`: heading, the four numbered sections and the
      trailer, or the error line of the first exception. */
  function SwotCall(ticker: string, t: Ticker, app: App, r: Render): string {
    match t.info
    case Raise(e) => CleanApp.SwotError(ticker, e, r)
    case Ok(info) =>
      var industry := Str(Get(info, "industry", Text("the industry")), r);
      match SwotLists(InfoRatios(info), industry, app == Standalone)
      case Raise(e) => CleanApp.SwotError(ticker, e, r)
      case Ok(l) => Body(SwotHeader(info, Upper(ticker), r), l, CopyOf(app), r) + Trailer(app)
  }

  method SwotTool(ticker: string, t: Ticker, app: App, r: Render) returns (out: string)
    ensures out == SwotCall(ticker, t, app, r)
  {
    if t.info.Raise? {
      return CleanApp.SwotError(ticker, t.info.error, r);
    }
    var info := t.info.value;
    var x := InfoRatios(info);
    var upside := app == Standalone;
    var industry := Str(Get(info, "industry", Text("the industry")), r);
    var strengths := CheckedStrengths(x);
    if strengths.Raise? {
      return CleanApp.SwotError(ticker, strengths.error, r);
    }
    var weaknesses := CheckedWeaknesses(x);
    if weaknesses.Raise? {
      return CleanApp.SwotError(ticker, weaknesses.error, r);
    }
    var opportunities := CheckedOpportunities(x, industry, upside);
    if opportunities.Raise? {
      return CleanApp.SwotError(ticker, opportunities.error, r);
    }
    var threats := CheckedThreats(x, industry);
    if threats.Raise? {
      return CleanApp.SwotError(ticker, threats.error, r);
    }
    var l := Lists(strengths.value, weaknesses.value, opportunities.value, threats.value);
    out := AppendBody(SwotHeader(info, Upper(ticker), r), l, CopyOf(app), r);
    out := out + Trailer(app);
  }
}
