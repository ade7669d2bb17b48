/** The three tools of the single-file app that reads Yahoo's quote-summary
    document itself (financial_app_clean.py): the metrics report with its
    nested value extractor, the M&A report and the SWOT report. The fetched
    document `data` is a parameter: the fetch answers `{}` on any failure. */
module CleanApp {
  import opened Py
  import opened Strings
  import opened Swot
  import News

  const NA: Value := Text("N/A")
  const Zero: Value := Num(0.0)

  /** `data.get(key, {})` for one section of the document. */
  function Section(es: seq<Entry>, key: string): Value {
    Get(es, key, Dict([]))
  }

  // ---------------------------------------------------------------------
  // The nested extractor `_get_value(data, *keys, default='N/A')`

  /** What the extractor answers once it has reached `v`: a dictionary gives
      its 'raw' entry, else its 'fmt' entry, else the default; None gives the
      default; anything else is the answer itself. */
  function Leaf(v: Value, default: Value): (r: Value)
    ensures v.Dict? && HasKey(v.entries, "raw") ==> r == Lookup(v.entries, "raw").value
    ensures v.Dict? && !HasKey(v.entries, "raw") && HasKey(v.entries, "fmt") ==> r == Lookup(v.entries, "fmt").value
    ensures v.Dict? && !HasKey(v.entries, "raw") && !HasKey(v.entries, "fmt") ==> r == default
    ensures v.Null? ==> r == default
    ensures !v.Dict? && !v.Null? ==> r == v
  {
    if v.Dict? then Get(v.entries, "raw", Get(v.entries, "fmt", default))
    else if v.Null? then default
    else v
  }

  /** The extractor as its loop computes it: a missing key moves on to `{}`,
      a value that is not a dictionary ends the walk with the default. */
  function Descend(data: Value, keys: seq<string>, default: Value): Value
    decreases |keys|
  {
    if keys == [] then Leaf(data, default)
    else if data.Dict? then Descend(Get(data.entries, keys[0], Dict([])), keys[1..], default)
    else default
  }

  /** The node `keys` name, when every step is a dictionary that has the key. */
  function Path(data: Value, keys: seq<string>): Option<Value>
    decreases |keys|
  {
    if keys == [] then Some(data)
    else if data.Dict? && HasKey(data.entries, keys[0]) then Path(Lookup(data.entries, keys[0]).value, keys[1..])
    else None
  }

  /** Walking on from an empty dictionary ends in the default. */
  lemma {:induction false} EmptyDescends(keys: seq<string>, default: Value)
    ensures Descend(Dict([]), keys, default) == default
    decreases |keys|
  {
    if keys != [] {
      EmptyDescends(keys[1..], default);
    }
  }

  /** The extractor answers the leaf's 'raw', else 'fmt', else the default
      when `keys` lead to a node, and the default when a key is missing or a
      step is not a dictionary. */
  lemma {:induction false} DescendFollowsPath(data: Value, keys: seq<string>, default: Value)
    ensures Path(data, keys).Some? ==> Descend(data, keys, default) == Leaf(Path(data, keys).value, default)
    ensures Path(data, keys).None? ==> Descend(data, keys, default) == default
    decreases |keys|
  {
    if keys != [] && data.Dict? {
      if HasKey(data.entries, keys[0]) {
        DescendFollowsPath(Lookup(data.entries, keys[0]).value, keys[1..], default);
      } else {
        EmptyDescends(keys[1..], default);
      }
    }
  }

  /** `_get_value`: the loop over `keys` and the final leaf rule. */
  method GetValue(data: Value, keys: seq<string>, default: Value) returns (v: Value)
    ensures v == Descend(data, keys, default)
  {
    v := data;
    for i := 0 to |keys|
      invariant Descend(v, keys[i..], default) == Descend(data, keys, default)
    {
      assert keys[i..][0] == keys[i] && keys[i..][1..] == keys[i + 1..];
      if !v.Dict? {
        return default;
      }
      v := Get(v.entries, keys[i], Dict([]));
    }
    assert keys[|keys|..] == [];
    if v.Dict? {
      v := Get(v.entries, "raw", Get(v.entries, "fmt", default));
    } else if v == Null {
      v := default;
    }
  }

  /** The one-key `_get_value(data, key, default)` of the M&A and SWOT tools;
      it calls `get` on the section itself, so a section that is not a
      dictionary raises AttributeError. */
  function FlatValue(section: Value, key: string, default: Value): (r: Result<Value>)
    ensures r.Raise? <==> !section.Dict?
  {
    if !section.Dict? then Raise(NoAttribute(section, "get"))
    else Ok(Read(section, key, default))
  }

  /** `_get_value(section, key, default)` on a section that is a dictionary. */
  function Read(section: Value, key: string, default: Value): Value
    requires section.Dict?
  {
    Leaf(Get(section.entries, key, default), default)
  }

  /** On a dictionary section, and with a default that is not a dictionary,
      the one-key extractor agrees with the nested one. */
  lemma FlatAgreesWithNested(section: Value, key: string, default: Value)
    requires section.Dict? && !default.Dict?
    ensures FlatValue(section, key, default) == Ok(Descend(section, [key], default))
  {
    assert [key][1..] == [];
    if !HasKey(section.entries, key) {
      assert Descend(section, [key], default) == Leaf(Dict([]), default);
    }
  }

  // ---------------------------------------------------------------------
  // FinancialMetricsTool

  /** The market-cap label of the summary. */
  datatype Cap = Billions(x: real) | Millions(x: real) | NotAvailable

  /** "B" above 1e9, "M" above 0, "N/A" for a non-number or a cap of 0 or less:
      the three cases cover every value and exclude one another. */
  function CapLabel(cap: Value): (c: Cap)
    ensures c.Billions? <==> IsNumber(cap) && AsReal(cap) > 1000000000.0
    ensures c.Millions? <==> IsNumber(cap) && 0.0 < AsReal(cap) <= 1000000000.0
    ensures c.NotAvailable? <==> !IsNumber(cap) || AsReal(cap) <= 0.0
    ensures !c.NotAvailable? ==> c.x == AsReal(cap)
  {
    if IsNumber(cap) && AsReal(cap) > 1000000000.0 then Billions(AsReal(cap))
    else if IsNumber(cap) && AsReal(cap) > 0.0 then Millions(AsReal(cap))
    else NotAvailable
  }

  function CapText(c: Cap, r: Render): string {
    match c
    case Billions(x) => "$" + r.number(Fixed(2), x / 1000000000.0) + "B"
    case Millions(x) => "$" + r.number(Fixed(2), x / 1000000.0) + "M"
    case NotAvailable => "N/A"
  }

  /** A percentage line `f"  {title}: {v * 100:.2f}%"`, or "N/A" when `shown`
      is false. */
  function PercentLine(title: string, v: Value, shown: bool, r: Render): string {
    "  " + title + ": " + (if shown then r.number(Fixed(2), AsReal(v) * 100.0) + "%" else "N/A") + "\n"
  }

  /** `rec.upper() if isinstance(rec, str) else rec`, as printed. */
  function Recommendation(rec: Value, r: Render): string {
    if rec.Text? then Upper(rec.s) else Str(rec, r)
  }

  /** The `+=` operands of `_get_summary`, in order. */
  function SummaryChunks(es: seq<Entry>, ticker: string, r: Render): seq<string> {
    var profile, price, summary := Section(es, "assetProfile"), Section(es, "price"), Section(es, "summaryDetail");
    var financial, stats := Section(es, "financialData"), Section(es, "defaultKeyStatistics");
    var v := (section: Value, key: string) => Str(Descend(section, [key], NA), r);
    var pm := Descend(financial, ["profitMargins"], Zero);
    var om := Descend(financial, ["operatingMargins"], Zero);
    var rg := Descend(financial, ["revenueGrowth"], Zero);
    [ "Financial Metrics for " + ticker + "\n",
      Rule() + "\n\n",
      "Company: " + v(price, "longName") + "\n",
      "Sector: " + v(profile, "sector") + "\n",
      "Industry: " + v(profile, "industry") + "\n\n",
      "Market Cap: " + CapText(CapLabel(Descend(price, ["marketCap"], Zero)), r) + "\n",
      "Current Price: $" + v(price, "regularMarketPrice") + "\n",
      "52 Week High: $" + v(summary, "fiftyTwoWeekHigh") + "\n",
      "52 Week Low: $" + v(summary, "fiftyTwoWeekLow") + "\n\n",
      "Valuation Metrics:\n",
      "  P/E Ratio: " + v(summary, "trailingPE") + "\n",
      "  Forward P/E: " + v(summary, "forwardPE") + "\n",
      "  Price to Book: " + v(stats, "priceToBook") + "\n",
      "  PEG Ratio: " + v(stats, "pegRatio") + "\n\n",
      "Profitability:\n",
      PercentLine("Profit Margin", pm, IsNumber(pm) && AsReal(pm) > 0.0, r),
      PercentLine("Operating Margin", om, IsNumber(om) && AsReal(om) > 0.0, r),
      "  ROE: " + v(financial, "returnOnEquity") + "\n",
      "  ROA: " + v(financial, "returnOnAssets") + "\n\n",
      "Growth:\n",
      PercentLine("Revenue Growth", rg, IsNumber(rg) && AsReal(rg) != 0.0, r),
      "  Earnings Growth: " + v(financial, "earningsGrowth") + "\n\n",
      "Financial Health:\n",
      "  Current Ratio: " + v(financial, "currentRatio") + "\n",
      "  Debt to Equity: " + v(financial, "debtToEquity") + "\n",
      "  Quick Ratio: " + v(financial, "quickRatio") + "\n\n",
      "Analyst Recommendation: " + Recommendation(Descend(financial, ["recommendationKey"], NA), r) + "\n" ]
  }

  /** The `+=` operands of `_get_ratios`, in order. */
  function RatiosChunks(es: seq<Entry>, ticker: string, r: Render): seq<string> {
    var financial, summary := Section(es, "financialData"), Section(es, "summaryDetail");
    var stats := Section(es, "defaultKeyStatistics");
    var v := (section: Value, key: string) => Str(Descend(section, [key], NA), r);
    [ "Financial Ratios for " + ticker + "\n",
      Rule() + "\n\n",
      "Profitability Ratios:\n",
      "  Gross Margin: " + v(financial, "grossMargins") + "\n",
      "  Operating Margin: " + v(financial, "operatingMargins") + "\n",
      "  Profit Margin: " + v(financial, "profitMargins") + "\n",
      "  ROE: " + v(financial, "returnOnEquity") + "\n",
      "  ROA: " + v(financial, "returnOnAssets") + "\n\n",
      "Valuation Ratios:\n",
      "  P/E Ratio: " + v(summary, "trailingPE") + "\n",
      "  Forward P/E: " + v(summary, "forwardPE") + "\n",
      "  PEG Ratio: " + v(stats, "pegRatio") + "\n",
      "  Price to Book: " + v(stats, "priceToBook") + "\n",
      "  Price to Sales: " + v(summary, "priceToSalesTrailing12Months") + "\n\n",
      "Liquidity Ratios:\n",
      "  Current Ratio: " + v(financial, "currentRatio") + "\n",
      "  Quick Ratio: " + v(financial, "quickRatio") + "\n\n",
      "Leverage Ratios:\n",
      "  Debt to Equity: " + v(financial, "debtToEquity") + "\n" ]
  }

  /** The answer of every tool when the fetch gave nothing. */
  function NoData(ticker: string): string {
    "Error: Could not fetch data for " + ticker + ". Please verify the ticker symbol."
  }

  /** `FinancialMetricsTool.__call__`: "ratios" gives the ratio report, any
      other type the summary; a document that is not a dictionary makes
      `data.get` raise, which is reported. */
  function MetricsCall(ticker: string, metricsType: string, data: Value, r: Render): string {
    if !Truthy(data) then NoData(ticker)
    else if !data.Dict? then "Error fetching data for " + ticker + ": " + r.error(NoAttribute(data, "get"))
    else if metricsType == "ratios" then Concat(RatiosChunks(data.entries, Upper(ticker), r))
    else Concat(SummaryChunks(data.entries, Upper(ticker), r))
  }

  /** Only "ratios" changes the report: every other type is the summary. */
  lemma MetricsTypeDispatch(ticker: string, metricsType: string, data: Value, r: Render)
    ensures metricsType != "ratios" ==> MetricsCall(ticker, metricsType, data, r) == MetricsCall(ticker, "summary", data, r)
    ensures !Truthy(data) ==> MetricsCall(ticker, metricsType, data, r) == NoData(ticker)
  {
  }

  // ---------------------------------------------------------------------
  // MATool

  /** The text printed when no M&A news is kept. */
  const NoNews: string :=
    "No recent M&A-related news found.\n" + "This could indicate the company is not actively pursuing M&A.\n"

  /** The heading lines of the M&A report. */
  function MaHeader(ticker: string, price: Value, profile: Value, r: Render): string
    requires price.Dict? && profile.Dict?
  {
    "M&A Activity Analysis for " + ticker + "\n" + (Rule() + "\n\n")
    + ("Company: " + Str(Read(price, "longName", NA), r) + "\n")
    + ("Sector: " + Str(Read(profile, "sector", NA), r) + "\n")
    + ("Industry: " + Str(Read(profile, "industry", NA), r) + "\n\n")
  }

  /** The M&A report: the heading, then the kept news of the first 15 items
      (at most five listed), or the no-news text. */
  function MaReport(ticker: string, es: seq<Entry>, news: seq<Value>, r: Render): Result<string> {
    var price, profile := Section(es, "price"), Section(es, "assetProfile");
    if !price.Dict? then Raise(NoAttribute(price, "get"))
    else if !profile.Dict? then Raise(NoAttribute(profile, "get"))
    else
      var kept :- News.Kept(Take(news, News.Window));
      Emitted(MaHeader(ticker, price, profile, r), News.NewsSection(kept, r, NoNews))
  }

  function MaError(ticker: string, e: PyError, r: Render): string {
    "Error analyzing M&A for " + ticker + ": " + r.error(e)
  }

  /** `MATool.__call__` over the fetched document and news list. */
  function MaCall(ticker: string, data: Value, news: seq<Value>, r: Render): string {
    if !Truthy(data) then NoData(ticker)
    else if !data.Dict? then MaError(ticker, NoAttribute(data, "get"), r)
    else match MaReport(Upper(ticker), data.entries, news, r)
    case Ok(s) => s
    case Raise(e) => MaError(ticker, e, r)
  }

  method MaTool(ticker: string, data: Value, news: seq<Value>, r: Render) returns (out: string)
    ensures out == MaCall(ticker, data, news, r)
  {
    if !Truthy(data) {
      return NoData(ticker);
    }
    if !data.Dict? {
      return MaError(ticker, NoAttribute(data, "get"), r);
    }
    var price, profile := Section(data.entries, "price"), Section(data.entries, "assetProfile");
    if !price.Dict? {
      return MaError(ticker, NoAttribute(price, "get"), r);
    }
    if !profile.Dict? {
      return MaError(ticker, NoAttribute(profile, "get"), r);
    }
    var header := MaHeader(Upper(ticker), price, profile, r);
    var maNews := News.FilterNews(news);
    if maNews.Raise? {
      return MaError(ticker, maNews.error, r);
    }
    var res := News.AppendNewsSection(header, maNews.value, r, NoNews);
    if res.Raise? {
      return MaError(ticker, res.error, r);
    }
    return res.value;
  }

  // ---------------------------------------------------------------------
  // SWOTTool

  /** The ratios the SWOT tool reads, each with default 0. Operating margin
      and the prices are not read by this copy. */
  function SwotRatios(financial: Value, summary: Value): Ratios
    requires financial.Dict? && summary.Dict?
  {
    Ratios(profitMargin := Read(financial, "profitMargins", Zero),
           roe := Read(financial, "returnOnEquity", Zero),
           currentRatio := Read(financial, "currentRatio", Zero),
           revenueGrowth := Read(financial, "revenueGrowth", Zero),
           operatingMargin := Null,
           debtToEquity := Read(financial, "debtToEquity", Zero),
           pe := Read(summary, "trailingPE", Zero),
           peg := Read(financial, "pegRatio", Zero),
           beta := Read(summary, "beta", Zero),
           currentPrice := Null,
           targetPrice := Null)
  }

  /** The heading of the SWOT report. */
  function SwotHeader(ticker: string, price: Value, profile: Value, r: Render): string
    requires price.Dict? && profile.Dict?
  {
    "SWOT Analysis for " + ticker + "\n" + (Rule() + "\n\n")
    + ("Company: " + Str(Read(price, "longName", NA), r) + "\n")
    + ("Sector: " + Str(Read(profile, "sector", NA), r) + "\n")
    + ("Industry: " + Str(Read(profile, "industry", NA), r) + "\n\n")
    + (Rule() + "\n\n")
  }

  /** The SWOT report: heading, the four numbered sections, closing rule; a
      section that is not a dictionary raises at its first `get`. */
  function SwotReport(ticker: string, es: seq<Entry>, r: Render): Result<string> {
    var price, profile := Section(es, "price"), Section(es, "assetProfile");
    var financial, summary := Section(es, "financialData"), Section(es, "summaryDetail");
    if !price.Dict? then Raise(NoAttribute(price, "get"))
    else if !profile.Dict? then Raise(NoAttribute(profile, "get"))
    else if !financial.Dict? then Raise(NoAttribute(financial, "get"))
    else if !summary.Dict? then Raise(NoAttribute(summary, "get"))
    else
      var industry := Read(profile, "industry", Text("the industry"));
      var l := Classified(SwotRatios(financial, summary), Str(industry, r), false);
      Ok(Body(SwotHeader(ticker, price, profile, r), l, AppClean, r) + ("\n" + Rule() + "\n"))
  }

  function SwotError(ticker: string, e: PyError, r: Render): string {
    "Error generating SWOT for " + ticker + ": " + r.error(e)
  }

  /** `SWOTTool.__call__` over the fetched document. */
  function SwotCall(ticker: string, data: Value, r: Render): string {
    if !Truthy(data) then NoData(ticker)
    else if !data.Dict? then SwotError(ticker, NoAttribute(data, "get"), r)
    else match SwotReport(Upper(ticker), data.entries, r)
    case Ok(s) => s
    case Raise(e) => SwotError(ticker, e, r)
  }

  method SwotTool(ticker: string, data: Value, r: Render) returns (out: string)
    ensures out == SwotCall(ticker, data, r)
  {
    if !Truthy(data) {
      return NoData(ticker);
    }
    if !data.Dict? {
      return SwotError(ticker, NoAttribute(data, "get"), r);
    }
    var es := data.entries;
    var price, profile := Section(es, "price"), Section(es, "assetProfile");
    var financial, summary := Section(es, "financialData"), Section(es, "summaryDetail");
    if !price.Dict? {
      return SwotError(ticker, NoAttribute(price, "get"), r);
    }
    if !profile.Dict? {
      return SwotError(ticker, NoAttribute(profile, "get"), r);
    }
    if !financial.Dict? {
      return SwotError(ticker, NoAttribute(financial, "get"), r);
    }
    if !summary.Dict? {
      return SwotError(ticker, NoAttribute(summary, "get"), r);
    }
    var industry := Read(profile, "industry", Text("the industry"));
    var x := SwotRatios(financial, summary);
    var strengths := CollectStrengths(x);
    var weaknesses := CollectWeaknesses(x);
    var opportunities := CollectOpportunities(x, Str(industry, r), false);
    var threats := CollectThreats(x, Str(industry, r));
    var l := Lists(strengths, weaknesses, opportunities, threats);
    out := AppendBody(SwotHeader(Upper(ticker), price, profile, r), l, AppClean, r);
    out := out + ("\n" + Rule() + "\n");
  }
}
