/** `SWOTTool` of the agent package: it gathers the quote's fields into
    sections (every absent field reads "N/A"), classifies them with its own
    variant of the rule table (analyst sentiment, an operating-margin
    weakness, the target-price upside, no lower bound on the low-liquidity
    and PEG rules) and prints the four numbered sections between a header and
    a note. */
module SwotAnalyzer {
  import opened Py
  import opened Strings
  import opened Swot

  const NA: Value := Text("N/A")
  const NewsShown: nat := 5           // `ticker_obj.news[:5]`
  const DescriptionLimit: nat := 500  // `info.get("longBusinessSummary", "N/A")[:500]`

  /** What the quote service hands over for one (upper-cased) ticker: the
      `info` dictionary and the news list, either of which may fail. */
  datatype Ticker = Ticker(info: Result<seq<Entry>>, news: Result<seq<Value>>)

  /** The gathered company data the rules and the report read. */
  datatype Company = Company(name: Value, sector: Value, industry: Value, rating: Value, x: Ratios)

  /** `x[:500]` succeeds on a string or a list. */
  predicate Sliceable(v: Value) {
    v.Text? || v.List?
  }

  /** The `item.get(...)` calls of the `recent_news` comprehension, item by
      item: the first item that is not a dictionary raises. */
  function CheckNews(items: seq<Value>): (res: Result<seq<Value>>)
    ensures res.Ok? <==> forall i :: 0 <= i < |items| ==> items[i].Dict?
    ensures res.Ok? ==> res.value == items
    ensures res.Raise? ==>
      exists i :: 0 <= i < |items| && !items[i].Dict? && res.error == NoAttribute(items[i], "get") &&
                  forall j :: 0 <= j < i ==> items[j].Dict?
  {
    if items == [] then Ok([])
    else if !items[0].Dict? then Raise(NoAttribute(items[0], "get"))
    else
      var rest := CheckNews(items[1..]);
      if rest.Raise? then
        assert forall j :: 1 <= j < |items| ==> items[j] == items[1..][j - 1];
        Raise(rest.error)
      else
        Ok(items)
  }

  /** The ratios of the rule table, each `info.get(key, "N/A")`. */
  function InfoRatios(info: seq<Entry>): Ratios {
    Ratios(profitMargin := Get(info, "profitMargins", NA),
           roe := Get(info, "returnOnEquity", NA),
           currentRatio := Get(info, "currentRatio", NA),
           revenueGrowth := Get(info, "revenueGrowth", NA),
           operatingMargin := Get(info, "operatingMargins", NA),
           debtToEquity := Get(info, "debtToEquity", NA),
           pe := Get(info, "trailingPE", NA),
           peg := Get(info, "pegRatio", NA),
           beta := Get(info, "beta", NA),
           currentPrice := Get(info, "currentPrice", NA),
           targetPrice := Get(info, "targetMeanPrice", NA))
  }

  /** `_gather_company_data`: `info` is read first, then the five latest news
      items; the description slice and the news comprehension can raise, in
      that order. Any exception becomes the `{"error": ...}` result. */
  function Gather(t: Ticker): (g: Result<Company>)
    ensures g.Ok? <==>
      t.info.Ok? && t.news.Ok? && Sliceable(Get(t.info.value, "longBusinessSummary", NA)) &&
      forall i :: 0 <= i < |Take(t.news.value, NewsShown)| ==> Take(t.news.value, NewsShown)[i].Dict?
    ensures t.info.Raise? ==> g == Raise(t.info.error)
    ensures g.Ok? ==>
      var info := t.info.value;
      g.value.name == Get(info, "longName", NA) && g.value.sector == Get(info, "sector", NA) &&
      g.value.industry == Get(info, "industry", NA) && g.value.rating == Get(info, "recommendationKey", NA)
  {
    var info :- t.info;
    var news :- t.news;
    var description := Get(info, "longBusinessSummary", NA);
    if !Sliceable(description) then Raise(NotSliceable(description))
    else
      var _ :- CheckNews(Take(news, NewsShown));
      Ok(Company(Get(info, "longName", NA), Get(info, "sector", NA), Get(info, "industry", NA),
                 Get(info, "recommendationKey", NA), InfoRatios(info)))
  }

  // ---------------------------------------------------------------------
  // _generate_swot_from_data

  /** `market.get("analyst_recommendation") in ["buy", "strong buy"]`. */
  predicate Positive(rating: Value) {
    rating == Text("buy") || rating == Text("strong buy")
  }

  /** `... in ["sell", "strong sell", "underperform"]`. */
  predicate Negative(rating: Value) {
    rating == Text("sell") || rating == Text("strong sell") || rating == Text("underperform")
  }

  /** The rules that add strengths, in the order they append. */
  function StrengthsFired(x: Ratios, rating: Value): seq<Item> {
    When(Above(x.profitMargin, MarginBar), StrongMargin(x.profitMargin))
    + When(Above(x.roe, RoeBar), ExcellentRoe(x.roe))
    + When(Above(x.currentRatio, LiquidityBar), HealthyLiquidity(x.currentRatio))
    + When(Above(x.revenueGrowth, GrowthBar), StrongGrowth(x.revenueGrowth))
    + (if Positive(rating) then [PositiveSentiment(rating.s)] else [])
  }

  /** `if not lst: lst.append(item)`. */
  function OrElse(fired: seq<Item>, fallback: Item): (l: seq<Item>)
    ensures l != []
    ensures fallback !in fired ==> (l == [fallback] <==> fired == [])
  {
    if fired == [] then [fallback] else fired
  }

  /** The strengths, with "Established market presence" exactly when no
      rule fired. */
  function Strengths(x: Ratios, rating: Value): (s: seq<Item>)
    ensures s != []
    ensures s == [EstablishedPresence] <==>
      !Above(x.profitMargin, MarginBar) && !Above(x.roe, RoeBar) && !Above(x.currentRatio, LiquidityBar) &&
      !Above(x.revenueGrowth, GrowthBar) && !Positive(rating)
  {
    var fired := StrengthsFired(x, rating);
    assert EstablishedPresence !in fired;
    OrElse(fired, EstablishedPresence)
  }

  /** The rules that add weaknesses; low liquidity has no lower bound here,
      and a low operating margin is a weakness. */
  function WeaknessesFired(x: Ratios): seq<Item> {
    When(Above(x.debtToEquity, DebtWeaknessBar), HighLeverage(x.debtToEquity))
    + When(Below(x.currentRatio, IlliquidityBar), LowLiquidity(x.currentRatio))
    + When(Above(x.pe, PeBar), HighPe(x.pe))
    + When(Below(x.operatingMargin, OperatingMarginBar), LowOperatingMargin(x.operatingMargin))
  }

  /** The weaknesses, with "Limited data available for detailed
      assessment" exactly when no rule fired. */
  function Weaknesses(x: Ratios): (w: seq<Item>)
    ensures w != []
    ensures w == [LimitedData] <==>
      !Above(x.debtToEquity, DebtWeaknessBar) && !Below(x.currentRatio, IlliquidityBar) &&
      !Above(x.pe, PeBar) && !Below(x.operatingMargin, OperatingMarginBar)
  {
    var fired := WeaknessesFired(x);
    assert LimitedData !in fired;
    OrElse(fired, LimitedData)
  }

  /** The rules that add opportunities; the industry entry is always there. */
  function OpportunitiesFired(x: Ratios, industry: string): seq<Item> {
    When(Above(x.revenueGrowth, 0.0), ExpandMarkets)
    + When(Below(x.peg, PegBar), Undervaluation)
    + UpsideEntry(x)
    + [LeveragePosition(industry)]
  }

  /** The opportunities always end with the industry entry, so their
      fallback "Market expansion and innovation" never fires. */
  function Opportunities(x: Ratios, industry: string): (o: seq<Item>)
    ensures 1 <= |o| <= 4 && o[|o| - 1] == LeveragePosition(industry) && MarketExpansion !in o
  {
    var fired := OpportunitiesFired(x, industry);
    assert MarketExpansion !in fired;
    OrElse(fired, MarketExpansion)
  }

  /** The rules that add threats; the two closing entries are always there. */
  function ThreatsFired(x: Ratios, rating: Value, industry: string): seq<Item> {
    When(Above(x.beta, BetaBar), HighBeta(x.beta))
    + When(Above(x.debtToEquity, DebtThreatBar), ElevatedDebt)
    + (if Negative(rating) then [NegativeSentiment(rating.s)] else [])
    + [Competition(industry), MarketVolatility]
  }

  /** The threats always end with the competition entry and then the
      macroeconomic one, so their fallback "Industry competition and market
      dynamics" never fires. */
  function Threats(x: Ratios, rating: Value, industry: string): (t: seq<Item>)
    ensures 2 <= |t| <= 5 && t[|t| - 2..] == [Competition(industry), MarketVolatility]
    ensures IndustryCompetition !in t
  {
    var fired := ThreatsFired(x, rating, industry);
    assert IndustryCompetition !in fired;
    OrElse(fired, IndustryCompetition)
  }

  /** The four lists `_generate_swot_from_data` returns, fallbacks included;
      none is empty. */
  function Classify(c: Company, r: Render): (l: Lists)
    ensures l.strengths != [] && l.weaknesses != [] && l.opportunities != [] && l.threats != []
  {
    var industry := Str(c.industry, r);
    Lists(Strengths(c.x, c.rating), Weaknesses(c.x), Opportunities(c.x, industry), Threats(c.x, c.rating, industry))
  }

  /** Each strength is present exactly when its test holds; a value that is
      not a number (such as the "N/A" default) fires none. */
  lemma StrengthRules(x: Ratios, rating: Value)
    ensures StrongMargin(x.profitMargin) in Strengths(x, rating) <==> Above(x.profitMargin, MarginBar)
    ensures ExcellentRoe(x.roe) in Strengths(x, rating) <==> Above(x.roe, RoeBar)
    ensures HealthyLiquidity(x.currentRatio) in Strengths(x, rating) <==> Above(x.currentRatio, LiquidityBar)
    ensures StrongGrowth(x.revenueGrowth) in Strengths(x, rating) <==> Above(x.revenueGrowth, GrowthBar)
  {
  }

  /** The sentiment strength is present exactly for a "buy" or "strong buy"
      rating. */
  lemma PositiveRule(x: Ratios, rating: Value)
    ensures (exists i :: 0 <= i < |Strengths(x, rating)| && Strengths(x, rating)[i].PositiveSentiment?) <==> Positive(rating)
  {
    var s := Strengths(x, rating);
    if Positive(rating) {
      assert s[|s| - 1].PositiveSentiment?;
    }
  }

  /** Each weakness is present exactly when its test holds. */
  lemma WeaknessRules(x: Ratios)
    ensures HighLeverage(x.debtToEquity) in Weaknesses(x) <==> Above(x.debtToEquity, DebtWeaknessBar)
    ensures LowLiquidity(x.currentRatio) in Weaknesses(x) <==> Below(x.currentRatio, IlliquidityBar)
    ensures HighPe(x.pe) in Weaknesses(x) <==> Above(x.pe, PeBar)
    ensures LowOperatingMargin(x.operatingMargin) in Weaknesses(x) <==> Below(x.operatingMargin, OperatingMarginBar)
  {
  }

  /** Each opportunity is present exactly when its test holds. */
  lemma OpportunityRules(x: Ratios, industry: string)
    ensures ExpandMarkets in Opportunities(x, industry) <==> Above(x.revenueGrowth, 0.0)
    ensures Undervaluation in Opportunities(x, industry) <==> Below(x.peg, PegBar)
  {
  }

  /** Each threat is present exactly when its test holds. */
  lemma ThreatRules(x: Ratios, rating: Value, industry: string)
    ensures HighBeta(x.beta) in Threats(x, rating, industry) <==> Above(x.beta, BetaBar)
    ensures ElevatedDebt in Threats(x, rating, industry) <==> Above(x.debtToEquity, DebtThreatBar)
  {
  }

  /** The sentiment threat is present exactly for a "sell", "strong sell"
      or "underperform" rating. */
  lemma NegativeRule(x: Ratios, rating: Value, industry: string)
    ensures var t := Threats(x, rating, industry);
      (exists i :: 0 <= i < |t| && t[i].NegativeSentiment?) <==> Negative(rating)
  {
    var t := Threats(x, rating, industry);
    if Negative(rating) {
      assert t[|t| - 3].NegativeSentiment?;
    }
  }

  /** The upside entry is present exactly when both prices are numbers, the
      current price is positive and the target exceeds it by more than 10 %;
      the upside it prints then exceeds 10 %. */
  lemma UpsideRule(x: Ratios, industry: string)
    ensures var o := Opportunities(x, industry);
      (exists i :: 0 <= i < |o| && o[i].Upside?) <==>
        IsNumber(x.currentPrice) && IsNumber(x.targetPrice) &&
        AsReal(x.currentPrice) > 0.0 && AsReal(x.targetPrice) > AsReal(x.currentPrice) * UpsideFactor
    ensures var o := Opportunities(x, industry);
      forall i :: 0 <= i < |o| && o[i].Upside? ==> o[i].percent > 10.0
  {
    var o := Opportunities(x, industry);
    var fixed := When(Above(x.revenueGrowth, 0.0), ExpandMarkets) + When(Below(x.peg, PegBar), Undervaluation);
    assert o == fixed + UpsideEntry(x) + [LeveragePosition(industry)];
    assert forall i :: 0 <= i < |fixed| ==> !fixed[i].Upside?;
    if UpsideFires(x) {
      assert o[|fixed|].Upside?;
      UpsideAboveTen(AsReal(x.currentPrice), AsReal(x.targetPrice));
    }
  }

  /** Positive and negative analyst sentiment never come together, and the
      leverage weakness always comes with the elevated-debt threat. */
  lemma RulesConsistent(c: Company, r: Render)
    ensures var l := Classify(c, r);
      !((exists i :: 0 <= i < |l.strengths| && l.strengths[i].PositiveSentiment?) &&
        (exists j :: 0 <= j < |l.threats| && l.threats[j].NegativeSentiment?))
    ensures var l := Classify(c, r);
      HighLeverage(c.x.debtToEquity) in l.weaknesses ==> ElevatedDebt in l.threats
  {
    var industry := Str(c.industry, r);
    PositiveRule(c.x, c.rating);
    NegativeRule(c.x, c.rating, industry);
    WeaknessRules(c.x);
    ThreatRules(c.x, c.rating, industry);
  }

  /** With no field a number and a rating that is neither positive nor
      negative, no rule fires and each list holds only what is always
      there. */
  lemma NothingFires(x: Ratios, rating: Value, industry: string)
    requires !IsNumber(x.profitMargin) && !IsNumber(x.roe) && !IsNumber(x.currentRatio)
    requires !IsNumber(x.revenueGrowth) && !IsNumber(x.operatingMargin) && !IsNumber(x.debtToEquity)
    requires !IsNumber(x.pe) && !IsNumber(x.peg) && !IsNumber(x.beta) && !IsNumber(x.currentPrice)
    requires !Positive(rating) && !Negative(rating)
    ensures Strengths(x, rating) == [EstablishedPresence]
    ensures Weaknesses(x) == [LimitedData]
    ensures Opportunities(x, industry) == [LeveragePosition(industry)]
    ensures Threats(x, rating, industry) == [Competition(industry), MarketVolatility]
  {
    assert OpportunitiesFired(x, industry) == [LeveragePosition(industry)];
    assert ThreatsFired(x, rating, industry) == [Competition(industry), MarketVolatility];
  }

  /** An empty `info` and no news gather to a company whose every field
      is "N/A". */
  lemma EmptyGather()
    ensures Gather(Ticker(Ok([]), Ok([]))) == Ok(Company(NA, NA, NA, NA, InfoRatios([])))
  {
    var none: seq<Value> := [];
    assert Take(none, NewsShown) == none;
    assert CheckNews(none) == Ok(none);
  }

  /** With an empty `info` every field reads "N/A": no rule fires and each
      list holds only what is always there. */
  lemma EmptyInfo(r: Render)
    ensures Gather(Ticker(Ok([]), Ok([]))).Ok?
    ensures var c := Gather(Ticker(Ok([]), Ok([]))).value;
      Classify(c, r) == Lists([EstablishedPresence], [LimitedData],
                              [LeveragePosition("N/A")], [Competition("N/A"), MarketVolatility])
  {
    EmptyGather();
    var x := InfoRatios([]);
    assert x.profitMargin == NA && x.roe == NA && x.currentRatio == NA && x.revenueGrowth == NA;
    assert x.operatingMargin == NA && x.debtToEquity == NA && x.pe == NA && x.peg == NA;
    assert x.beta == NA && x.currentPrice == NA;
    assert !Positive(NA) && !Negative(NA) by {
      assert "N/A"[0] == 'N';
    }
    NothingFires(x, NA, "N/A");
  }

  /** The strengths block of `_generate_swot_from_data`. */
  method CollectStrengths(x: Ratios, rating: Value) returns (strengths: seq<Item>)
    ensures strengths == Strengths(x, rating)
  {
    var margin := When(Above(x.profitMargin, MarginBar), StrongMargin(x.profitMargin));
    var roe := When(Above(x.roe, RoeBar), ExcellentRoe(x.roe));
    var liquidity := When(Above(x.currentRatio, LiquidityBar), HealthyLiquidity(x.currentRatio));
    var growth := When(Above(x.revenueGrowth, GrowthBar), StrongGrowth(x.revenueGrowth));
    strengths := [];
    if Above(x.profitMargin, MarginBar) {
      strengths := strengths + [StrongMargin(x.profitMargin)];
    }
    assert strengths == margin;
    if Above(x.roe, RoeBar) {
      strengths := strengths + [ExcellentRoe(x.roe)];
    }
    assert strengths == margin + roe;
    if Above(x.currentRatio, LiquidityBar) {
      strengths := strengths + [HealthyLiquidity(x.currentRatio)];
    }
    assert strengths == margin + roe + liquidity;
    if Above(x.revenueGrowth, GrowthBar) {
      strengths := strengths + [StrongGrowth(x.revenueGrowth)];
    }
    assert strengths == margin + roe + liquidity + growth;
    if Positive(rating) {
      strengths := strengths + [PositiveSentiment(rating.s)];
    }
    assert strengths == StrengthsFired(x, rating);
    if strengths == [] {
      strengths := strengths + [EstablishedPresence];
    }
  }

  /** The weaknesses block. */
  method CollectWeaknesses(x: Ratios) returns (weaknesses: seq<Item>)
    ensures weaknesses == Weaknesses(x)
  {
    weaknesses := [];
    if Above(x.debtToEquity, DebtWeaknessBar) {
      weaknesses := weaknesses + [HighLeverage(x.debtToEquity)];
    }
    if Below(x.currentRatio, IlliquidityBar) {
      weaknesses := weaknesses + [LowLiquidity(x.currentRatio)];
    }
    if Above(x.pe, PeBar) {
      weaknesses := weaknesses + [HighPe(x.pe)];
    }
    if Below(x.operatingMargin, OperatingMarginBar) {
      weaknesses := weaknesses + [LowOperatingMargin(x.operatingMargin)];
    }
    assert weaknesses == WeaknessesFired(x);
    if weaknesses == [] {
      weaknesses := weaknesses + [LimitedData];
    }
  }

  /** The opportunities block: the target-price test first checks that
      both prices are numbers. */
  method CollectOpportunities(x: Ratios, industry: string) returns (opportunities: seq<Item>)
    ensures opportunities == Opportunities(x, industry)
  {
    opportunities := [];
    if Above(x.revenueGrowth, 0.0) {
      opportunities := opportunities + [ExpandMarkets];
    }
    if Below(x.peg, PegBar) {
      opportunities := opportunities + [Undervaluation];
    }
    var current, target := x.currentPrice, x.targetPrice;
    if IsNumber(current) && IsNumber(target) {
      if AsReal(current) > 0.0 && AsReal(target) > AsReal(current) * UpsideFactor {
        var upside := (AsReal(target) - AsReal(current)) / AsReal(current) * 100.0;
        opportunities := opportunities + [Upside(upside)];
      }
    }
    opportunities := opportunities + [LeveragePosition(industry)];
    if opportunities == [] {
      opportunities := opportunities + [MarketExpansion];
    }
  }

  /** The threats block. */
  method CollectThreats(x: Ratios, rating: Value, industry: string) returns (threats: seq<Item>)
    ensures threats == Threats(x, rating, industry)
  {
    threats := [];
    if Above(x.beta, BetaBar) {
      threats := threats + [HighBeta(x.beta)];
    }
    if Above(x.debtToEquity, DebtThreatBar) {
      threats := threats + [ElevatedDebt];
    }
    if Negative(rating) {
      threats := threats + [NegativeSentiment(rating.s)];
    }
    threats := threats + [Competition(industry), MarketVolatility];
    if threats == [] {
      threats := threats + [IndustryCompetition];
    }
  }

  /** `_generate_swot_from_data`: the four lists filled in place, rule by
      rule, each empty one then given its fallback. */
  method GenerateSwot(c: Company, r: Render) returns (l: Lists)
    ensures l == Classify(c, r)
  {
    var industry := Str(c.industry, r);
    var strengths := CollectStrengths(c.x, c.rating);
    var weaknesses := CollectWeaknesses(c.x);
    var opportunities := CollectOpportunities(c.x, industry);
    var threats := CollectThreats(c.x, c.rating, industry);
    l := Lists(strengths, weaknesses, opportunities, threats);
  }

  // ---------------------------------------------------------------------
  // _format_swot_report and __call__

  /** The title, the sector and industry lines, each block closed by a rule. */
  function Header(ticker: string, c: Company, r: Render): string {
    "SWOT Analysis for " + Str(c.name, r) + " (" + ticker + ")\n" + (Rule() + "\n\n")
    + ("Sector: " + Str(c.sector, r) + "\n")
    + ("Industry: " + Str(c.industry, r) + "\n\n")
    + (Rule() + "\n\n")
  }

  /** The closing rule and the two-line note. */
  function Note(): string {
    "\n" + Rule() + "\n"
    + "Note: This SWOT analysis is generated from publicly available financial data\n"
    + "and should be used as a starting point for further research and analysis.\n"
  }

  /** The report: the header, STRENGTHS, WEAKNESSES, OPPORTUNITIES and
      THREATS in that order, each numbered from 1 in list order, then the
      note. */
  function Report(ticker: string, c: Company, l: Lists, r: Render): string {
    Body(Header(ticker, c, r), l, Analyzer, r) + Note()
  }

  /** `_format_swot_report`, growing `report` section by section. */
  method FormatSwotReport(ticker: string, c: Company, l: Lists, r: Render) returns (report: string)
    ensures report == Report(ticker, c, l, r)
  {
    report := Header(ticker, c, r);
    report := AppendBody(report, l, Analyzer, r);
    report := report + Note();
  }

  const ErrorLead: string := "Error generating SWOT analysis for "

  function SwotError(ticker: string, e: PyError, r: Render): string {
    ErrorLead + ticker + ": " + r.error(e)
  }

  /** `SWOTTool.__call__`: the upper-cased ticker's data is gathered, and an
      error there is reported instead of the analysis. Nothing after the
      gathering raises, so the outer `except` is never reached. */
  function SwotCall(ticker: string, t: Ticker, r: Render): string {
    var upper := Upper(ticker);
    match Gather(t)
    case Raise(e) => SwotError(upper, e, r)
    case Ok(c) => Report(upper, c, Classify(c, r), r)
  }

  lemma HeaderFirst(ticker: string, c: Company, r: Render)
    ensures |Header(ticker, c, r)| > 0 && Header(ticker, c, r)[0] == 'S'
  {
    var lead := "SWOT Analysis for ";
    assert lead[0] == 'S';
    var x := lead + Str(c.name, r) + " (" + ticker + ")\n";
    assert x == lead + (Str(c.name, r) + " (" + ticker + ")\n");
    var y := Rule() + "\n\n";
    var z := "Sector: " + Str(c.sector, r) + "\n";
    var u := "Industry: " + Str(c.industry, r) + "\n\n";
    PrefixFirst(lead, Str(c.name, r) + " (" + ticker + ")\n");
    PrefixFirst(x, y);
    PrefixFirst(x + y, z);
    PrefixFirst(x + y + z, u);
    PrefixFirst(x + y + z + u, y);
  }

  lemma ReportFirst(ticker: string, c: Company, l: Lists, r: Render)
    ensures |Report(ticker, c, l, r)| > 0 && Report(ticker, c, l, r)[0] == 'S'
  {
    var h := Header(ticker, c, r);
    HeaderFirst(ticker, c, r);
    var s := Section("STRENGTHS\n", Texts(l.strengths, Analyzer, r));
    var w := Section("\nWEAKNESSES\n", Texts(l.weaknesses, Analyzer, r));
    var o := Section("\nOPPORTUNITIES\n", Texts(l.opportunities, Analyzer, r));
    var t := Section("\nTHREATS\n", Texts(l.threats, Analyzer, r));
    PrefixFirst(h, s);
    PrefixFirst(h + s, w);
    PrefixFirst(h + s + w, o);
    PrefixFirst(h + s + w + o, t);
    PrefixFirst(h + s + w + o + t, Note());
  }

  /** The answer is an error line, and no report, exactly when gathering the
      data failed. */
  lemma SwotCallError(ticker: string, t: Ticker, r: Render)
    ensures StartsWith(SwotCall(ticker, t, r), ErrorLead) <==> Gather(t).Raise?
  {
    var upper := Upper(ticker);
    var out := SwotCall(ticker, t, r);
    match Gather(t)
    case Ok(c) =>
      ReportFirst(upper, c, Classify(c, r), r);
      assert ErrorLead[0] == 'E';
      FirstCharDiffers(out, ErrorLead);
    case Raise(e) =>
      StartsWithJoin(ErrorLead, upper);
      StartsWithExtend(ErrorLead + upper, ErrorLead, ": ");
      StartsWithExtend(ErrorLead + upper + ": ", ErrorLead, r.error(e));
  }

  /** `SWOTTool.__call__` as written: gather, classify, format. */
  method SwotTool(ticker: string, t: Ticker, r: Render) returns (out: string)
    ensures out == SwotCall(ticker, t, r)
  {
    var upper := Upper(ticker);
    var data := Gather(t);
    if data.Raise? {
      return SwotError(upper, data.error, r);
    }
    var l := GenerateSwot(data.value, r);
    out := FormatSwotReport(upper, data.value, l, r);
  }
}
