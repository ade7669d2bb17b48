/** What the four copies of the rule-based SWOT write-up share: the
    thresholds, the entries a rule can add, how each copy words an entry, and
    the numbered sections (`for i, s in enumerate(items, 1)`) of the report. */
module Swot {
  import opened Py
  import opened Strings

  // The thresholds of the rule table; every copy uses the same ones.
  const MarginBar: real := 0.15            // profit margin above it is a strength
  const RoeBar: real := 0.15               // return on equity above it is a strength
  const LiquidityBar: real := 1.5          // current ratio above it is a strength
  const IlliquidityBar: real := 1.0        // current ratio below it is a weakness
  const GrowthBar: real := 0.1             // revenue growth above it is a strength
  const DebtWeaknessBar: real := 2.0       // debt/equity above it is a weakness
  const DebtThreatBar: real := 1.5         // debt/equity above it is a threat
  const PeBar: real := 30.0                // trailing P/E above it is a weakness
  const PegBar: real := 1.0                // PEG below it is an opportunity
  const BetaBar: real := 1.5               // beta above it is a threat
  const UpsideFactor: real := 1.1          // target above 1.1 x price is an opportunity
  const OperatingMarginBar: real := 0.05   // operating margin below it is a weakness

  /** `isinstance(v, (int, float)) and v > c`. */
  predicate Above(v: Value, c: real) {
    IsNumber(v) && AsReal(v) > c
  }

  /** `isinstance(v, (int, float)) and v < c`. */
  predicate Below(v: Value, c: real) {
    IsNumber(v) && AsReal(v) < c
  }

  /** `isinstance(v, (int, float)) and lo < v < hi`. */
  predicate Between(v: Value, lo: real, hi: real) {
    IsNumber(v) && lo < AsReal(v) < hi
  }

  /** The entry a rule appends when its test holds. */
  function When(test: bool, item: Item): seq<Item> {
    if test then [item] else []
  }

  /** The ratios a rule table reads, each as the copy obtained it (a number,
      or whatever default or odd value the source produced). */
  datatype Ratios = Ratios(
    profitMargin: Value, roe: Value, currentRatio: Value, revenueGrowth: Value,
    operatingMargin: Value, debtToEquity: Value, pe: Value, peg: Value, beta: Value,
    currentPrice: Value, targetPrice: Value)

  /** One bullet of the write-up. An entry holds the value its rule tested,
      which the rule has found to be a number, and prints that number. */
  datatype Item =
    // strengths
    | StrongMargin(margin: Value)
    | ExcellentRoe(roe: Value)
    | HealthyLiquidity(ratio: Value)
    | StrongGrowth(growth: Value)
    | PositiveSentiment(rating: string)
    | EstablishedPresence
    // weaknesses
    | HighLeverage(debtToEquity: Value)
    | LowLiquidity(ratio: Value)
    | HighPe(pe: Value)
    | LowOperatingMargin(margin: Value)
    | LimitedData
    // opportunities
    | ExpandMarkets
    | Undervaluation
    | Upside(percent: real)
    | LeveragePosition(industry: string)
    | MarketExpansion
    // threats
    | HighBeta(beta: Value)
    | ElevatedDebt
    | NegativeSentiment(rating: string)
    | Competition(industry: string)
    | MarketVolatility
    | IndustryCompetition

  /** The four categorised lists. */
  datatype Lists = Lists(strengths: seq<Item>, weaknesses: seq<Item>,
                         opportunities: seq<Item>, threats: seq<Item>)

  /** Which copy of the write-up is printing: the copies word some entries
      differently. */
  datatype Copy = AppClean | AppSimple | AppStandalone | Analyzer

  /** `(target - current) / current * 100`, the upside the standalone tool and
      the analyzer print. */
  function UpsidePercent(current: real, target: real): real
    requires current != 0.0
  {
    (target - current) / current * 100.0
  }

  /** Whenever the upside rule fires, the upside it prints exceeds 10 %. */
  lemma UpsideAboveTen(current: real, target: real)
    requires current > 0.0 && target > current * UpsideFactor
    ensures UpsidePercent(current, target) > 10.0
  {
    var q := (target - current) / current;
    assert q * current == target - current;
    assert (q - 0.1) * current > 0.0;
  }

  /** The text of an entry as `copy` prints it. */
  function Wording(item: Item, copy: Copy, r: Render): string {
    var pct := (v: Value) => r.number(Fixed(1), AsReal(v) * 100.0) + "%";   // f"{x * 100:.1f}%"
    match item
    case StrongMargin(m) =>
      "Strong profit margin of " + (if copy == Analyzer then r.number(Percent(1), AsReal(m)) else pct(m))
    case ExcellentRoe(x) =>
      if copy == Analyzer then "Excellent return on equity of " + r.number(Percent(1), AsReal(x))
      else "Excellent ROE of " + pct(x)
    case HealthyLiquidity(x) => "Healthy liquidity with current ratio of " + r.number(Fixed(2), AsReal(x))
    case StrongGrowth(g) =>
      "Strong revenue growth of " + (if copy == Analyzer then r.number(Percent(1), AsReal(g)) else pct(g))
    case PositiveSentiment(s) => "Positive analyst sentiment: " + s
    case EstablishedPresence => "Established market presence"
    case HighLeverage(x) => "High debt-to-equity ratio of " + r.number(Fixed(2), AsReal(x))
    case LowLiquidity(x) => "Low liquidity with current ratio of " + r.number(Fixed(2), AsReal(x))
    case HighPe(x) => "High P/E ratio of " + r.number(Fixed(2), AsReal(x)) + " may indicate overvaluation"
    case LowOperatingMargin(m) => "Low operating margin of " + r.number(Percent(1), AsReal(m))
    case LimitedData =>
      if copy == Analyzer then "Limited data available for detailed assessment"
      else if copy == AppStandalone then "Limited public data available for detailed assessment"
      else "Limited public data available"
    case ExpandMarkets => "Continue expanding in growing markets"
    case Undervaluation =>
      if copy == AppClean || copy == AppSimple then "Potential undervaluation based on growth"
      else "Potential undervaluation based on growth prospects"
    case Upside(p) => "Analyst target price suggests " + r.number(Fixed(1), p) + "% upside potential"
    case LeveragePosition(s) =>
      "Leverage position in " + s + (if copy == Analyzer then " sector" else "")
    case MarketExpansion => "Market expansion and innovation"
    case HighBeta(b) => "High market volatility (beta: " + r.number(Fixed(2), AsReal(b)) + ")"
    case ElevatedDebt =>
      if copy == AppClean || copy == AppSimple then "Elevated debt levels"
      else "Elevated debt levels may limit financial flexibility"
    case NegativeSentiment(s) => "Negative analyst sentiment: " + s
    case Competition(s) =>
      (if copy == Analyzer then "Competition and disruption in " else "Competition in ") + s
    case MarketVolatility =>
      if copy == AppClean || copy == AppSimple then "Market volatility"
      else "Macroeconomic uncertainties and market volatility"
    case IndustryCompetition => "Industry competition and market dynamics"
  }

  function Texts(items: seq<Item>, copy: Copy, r: Render): (t: seq<string>)
    ensures |t| == |items| && forall i :: 0 <= i < |items| ==> t[i] == Wording(items[i], copy, r)
  {
    seq(|items|, i requires 0 <= i < |items| => Wording(items[i], copy, r))
  }

  /** `"=" * 70`, the rule that frames a report. */
  function Rule(): string {
    Repeat('=', 70)
  }

  /** `"-" * 70 + "\n"`, the underline of a section heading. */
  function Dashes(): string {
    Repeat('-', 70) + "\n"
  }

  /** The lines `f"{i}. {s}\n"` for `i, s in enumerate(lines, 1)`. */
  function NumberedLines(lines: seq<string>): (r: seq<string>)
    ensures |r| == |lines|
    ensures forall i :: 0 <= i < |lines| ==> r[i] == NatStr(i + 1) + ". " + lines[i] + "\n"
  {
    seq(|lines|, i requires 0 <= i < |lines| => NatStr(i + 1) + ". " + lines[i] + "\n")
  }

  /** The enumerate loop that prints a list, numbered from 1, in list order. */
  method AppendNumbered(output: string, lines: seq<string>) returns (out: string)
    ensures out == output + Concat(NumberedLines(lines))
  {
    out := output;
    for k := 0 to |lines|
      invariant out == output + Concat(NumberedLines(lines[..k]))
    {
      var line := NatStr(k + 1) + ". " + lines[k] + "\n";
      assert NumberedLines(lines[..k + 1]) == NumberedLines(lines[..k]) + [line];
      AppendAssoc(output, Concat(NumberedLines(lines[..k])), line);
      out := out + line;
    }
    assert lines[..|lines|] == lines;
  }

  /** A heading, its underline and the numbered entries. */
  function SectionChunks(heading: string, lines: seq<string>): seq<string> {
    [heading, Dashes()] + NumberedLines(lines)
  }

  /** The text of one section. */
  function Section(heading: string, lines: seq<string>): string {
    Concat(SectionChunks(heading, lines))
  }

  method AppendSection(output: string, heading: string, lines: seq<string>) returns (out: string)
    ensures out == output + Section(heading, lines)
  {
    out := output + heading;
    out := out + Dashes();
    out := AppendNumbered(out, lines);
    var numbered := Concat(NumberedLines(lines));
    AppendAssoc(output, heading, Dashes());
    AppendAssoc(output, heading + Dashes(), numbered);
    ConcatAppend([heading, Dashes()], NumberedLines(lines));
    assert Concat([heading, Dashes()]) == heading + Dashes() by {
      assert [heading, Dashes()][..1] == [heading];
      assert Concat([heading]) == heading by {
        assert [heading][..0] == [];
      }
    }
  }

  /** `output` followed by the four sections of the app tools' report:
      STRENGTHS, WEAKNESSES, OPPORTUNITIES, THREATS, in that order, each entry
      numbered from 1 in list order. */
  function Body(output: string, l: Lists, copy: Copy, r: Render): string {
    output
    + Section("STRENGTHS\n", Texts(l.strengths, copy, r))
    + Section("\nWEAKNESSES\n", Texts(l.weaknesses, copy, r))
    + Section("\nOPPORTUNITIES\n", Texts(l.opportunities, copy, r))
    + Section("\nTHREATS\n", Texts(l.threats, copy, r))
  }

  /** The four heading-and-enumerate blocks of the app tools. */
  method AppendBody(output: string, l: Lists, copy: Copy, r: Render) returns (out: string)
    ensures out == Body(output, l, copy, r)
  {
    out := AppendSection(output, "STRENGTHS\n", Texts(l.strengths, copy, r));
    out := AppendSection(out, "\nWEAKNESSES\n", Texts(l.weaknesses, copy, r));
    out := AppendSection(out, "\nOPPORTUNITIES\n", Texts(l.opportunities, copy, r));
    out := AppendSection(out, "\nTHREATS\n", Texts(l.threats, copy, r));
  }

  // ---------------------------------------------------------------------
  // The rule table of the app tools (financial_app_clean.py, simple_app.py,
  // standalone_tools.py)

  /** Strengths: margin, ROE, liquidity and growth above their bars, or
      "Established market presence" exactly when none of them is. */
  function Strengths(x: Ratios): (s: seq<Item>)
    ensures s != []
    ensures s == [EstablishedPresence] <==>
      !Above(x.profitMargin, MarginBar) && !Above(x.roe, RoeBar) &&
      !Above(x.currentRatio, LiquidityBar) && !Above(x.revenueGrowth, GrowthBar)
  {
    var fired := When(Above(x.profitMargin, MarginBar), StrongMargin(x.profitMargin))
               + When(Above(x.roe, RoeBar), ExcellentRoe(x.roe))
               + When(Above(x.currentRatio, LiquidityBar), HealthyLiquidity(x.currentRatio))
               + When(Above(x.revenueGrowth, GrowthBar), StrongGrowth(x.revenueGrowth));
    assert EstablishedPresence !in fired;
    if fired == [] then [EstablishedPresence] else fired
  }

  /** Weaknesses: debt/equity above 2, a current ratio strictly between 0 and
      1, P/E above 30, or "Limited public data available" exactly when none
      of them holds. */
  function Weaknesses(x: Ratios): (w: seq<Item>)
    ensures w != []
    ensures w == [LimitedData] <==>
      !Above(x.debtToEquity, DebtWeaknessBar) && !Between(x.currentRatio, 0.0, IlliquidityBar) && !Above(x.pe, PeBar)
  {
    var fired := When(Above(x.debtToEquity, DebtWeaknessBar), HighLeverage(x.debtToEquity))
               + When(Between(x.currentRatio, 0.0, IlliquidityBar), LowLiquidity(x.currentRatio))
               + When(Above(x.pe, PeBar), HighPe(x.pe));
    assert LimitedData !in fired;
    if fired == [] then [LimitedData] else fired
  }

  /** The target-price rule: a positive current price and a target more
      than 10 % above it. */
  predicate UpsideFires(x: Ratios) {
    Above(x.currentPrice, 0.0) && Above(x.targetPrice, AsReal(x.currentPrice) * UpsideFactor)
  }

  /** The upside entry, when the target-price rule fires. */
  function UpsideEntry(x: Ratios): seq<Item> {
    if UpsideFires(x) then [Upside(UpsidePercent(AsReal(x.currentPrice), AsReal(x.targetPrice)))] else []
  }

  /** Opportunities always end with the industry entry and hold one to
      three entries, four in a copy that has the target-price rule
      (`upside`). */
  function Opportunities(x: Ratios, industry: string, upside: bool): (o: seq<Item>)
    ensures 1 <= |o| <= (if upside then 4 else 3) && o[|o| - 1] == LeveragePosition(industry)
  {
    When(Above(x.revenueGrowth, 0.0), ExpandMarkets)
    + When(Between(x.peg, 0.0, PegBar), Undervaluation)
    + (if upside then UpsideEntry(x) else [])
    + [LeveragePosition(industry)]
  }

  /** Threats always end with the competition entry and then market
      volatility, and hold two to four entries. */
  function Threats(x: Ratios, industry: string): (t: seq<Item>)
    ensures 2 <= |t| <= 4 && t[|t| - 2..] == [Competition(industry), MarketVolatility]
  {
    When(Above(x.beta, BetaBar), HighBeta(x.beta))
    + When(Above(x.debtToEquity, DebtThreatBar), ElevatedDebt)
    + [Competition(industry), MarketVolatility]
  }

  /** The four lists of the SWOT tool. */
  function Classified(x: Ratios, industry: string, upside: bool): Lists {
    Lists(Strengths(x), Weaknesses(x), Opportunities(x, industry, upside), Threats(x, industry))
  }

  /** Each strength is present exactly when its test holds. */
  lemma StrengthRules(x: Ratios)
    ensures StrongMargin(x.profitMargin) in Strengths(x) <==> Above(x.profitMargin, MarginBar)
    ensures ExcellentRoe(x.roe) in Strengths(x) <==> Above(x.roe, RoeBar)
    ensures HealthyLiquidity(x.currentRatio) in Strengths(x) <==> Above(x.currentRatio, LiquidityBar)
    ensures StrongGrowth(x.revenueGrowth) in Strengths(x) <==> Above(x.revenueGrowth, GrowthBar)
  {
  }

  /** Each weakness is present exactly when its test holds. */
  lemma WeaknessRules(x: Ratios)
    ensures HighLeverage(x.debtToEquity) in Weaknesses(x) <==> Above(x.debtToEquity, DebtWeaknessBar)
    ensures LowLiquidity(x.currentRatio) in Weaknesses(x) <==> Between(x.currentRatio, 0.0, IlliquidityBar)
    ensures HighPe(x.pe) in Weaknesses(x) <==> Above(x.pe, PeBar)
  {
  }

  /** Each opportunity and threat is present exactly when its test holds. */
  lemma OpportunityAndThreatRules(x: Ratios, industry: string, upside: bool)
    ensures ExpandMarkets in Opportunities(x, industry, upside) <==> Above(x.revenueGrowth, 0.0)
    ensures Undervaluation in Opportunities(x, industry, upside) <==> Between(x.peg, 0.0, PegBar)
    ensures HighBeta(x.beta) in Threats(x, industry) <==> Above(x.beta, BetaBar)
    ensures ElevatedDebt in Threats(x, industry) <==> Above(x.debtToEquity, DebtThreatBar)
  {
  }

  /** The upside entry is present exactly in a copy with the target-price
      rule when that rule fires, and the upside it prints then exceeds 10 %. */
  lemma UpsideRule(x: Ratios, industry: string, upside: bool)
    ensures var o := Opportunities(x, industry, upside);
      (exists i :: 0 <= i < |o| && o[i].Upside?) <==> upside && UpsideFires(x)
    ensures var o := Opportunities(x, industry, upside);
      forall i :: 0 <= i < |o| && o[i].Upside? ==> o[i].percent > 10.0
  {
    var o := Opportunities(x, industry, upside);
    var fixed := When(Above(x.revenueGrowth, 0.0), ExpandMarkets) + When(Between(x.peg, 0.0, PegBar), Undervaluation);
    assert forall i :: 0 <= i < |fixed| ==> !fixed[i].Upside?;
    if upside && UpsideFires(x) {
      assert o[|fixed|].Upside?;
      UpsideAboveTen(AsReal(x.currentPrice), AsReal(x.targetPrice));
    }
  }

  /** The liquidity strength and the liquidity weakness never come together,
      and the leverage weakness always comes with the elevated-debt threat. */
  lemma RulesConsistent(x: Ratios, industry: string, upside: bool)
    ensures var l := Classified(x, industry, upside);
      !(HealthyLiquidity(x.currentRatio) in l.strengths && LowLiquidity(x.currentRatio) in l.weaknesses)
    ensures var l := Classified(x, industry, upside);
      HighLeverage(x.debtToEquity) in l.weaknesses ==> ElevatedDebt in l.threats
  {
  }

  /** The strengths block: one `append` per rule that fires, then the
      fallback. */
  method CollectStrengths(x: Ratios) returns (strengths: seq<Item>)
    ensures strengths == Strengths(x)
  {
    strengths := [];
    if Above(x.profitMargin, MarginBar) {
      strengths := strengths + [StrongMargin(x.profitMargin)];
    }
    if Above(x.roe, RoeBar) {
      strengths := strengths + [ExcellentRoe(x.roe)];
    }
    if Above(x.currentRatio, LiquidityBar) {
      strengths := strengths + [HealthyLiquidity(x.currentRatio)];
    }
    if Above(x.revenueGrowth, GrowthBar) {
      strengths := strengths + [StrongGrowth(x.revenueGrowth)];
    }
    assert strengths == When(Above(x.profitMargin, MarginBar), StrongMargin(x.profitMargin))
      + When(Above(x.roe, RoeBar), ExcellentRoe(x.roe))
      + When(Above(x.currentRatio, LiquidityBar), HealthyLiquidity(x.currentRatio))
      + When(Above(x.revenueGrowth, GrowthBar), StrongGrowth(x.revenueGrowth));
    if strengths == [] {
      strengths := strengths + [EstablishedPresence];
    }
  }

  /** The weaknesses block. */
  method CollectWeaknesses(x: Ratios) returns (weaknesses: seq<Item>)
    ensures weaknesses == Weaknesses(x)
  {
    weaknesses := [];
    if Above(x.debtToEquity, DebtWeaknessBar) {
      weaknesses := weaknesses + [HighLeverage(x.debtToEquity)];
    }
    if Between(x.currentRatio, 0.0, IlliquidityBar) {
      weaknesses := weaknesses + [LowLiquidity(x.currentRatio)];
    }
    if Above(x.pe, PeBar) {
      weaknesses := weaknesses + [HighPe(x.pe)];
    }
    assert weaknesses == When(Above(x.debtToEquity, DebtWeaknessBar), HighLeverage(x.debtToEquity))
      + When(Between(x.currentRatio, 0.0, IlliquidityBar), LowLiquidity(x.currentRatio))
      + When(Above(x.pe, PeBar), HighPe(x.pe));
    if weaknesses == [] {
      weaknesses := weaknesses + [LimitedData];
    }
  }

  /** The opportunities block; the industry entry is always appended. */
  method CollectOpportunities(x: Ratios, industry: string, upside: bool) returns (opportunities: seq<Item>)
    ensures opportunities == Opportunities(x, industry, upside)
  {
    opportunities := [];
    if Above(x.revenueGrowth, 0.0) {
      opportunities := opportunities + [ExpandMarkets];
    }
    if Between(x.peg, 0.0, PegBar) {
      opportunities := opportunities + [Undervaluation];
    }
    if upside && UpsideFires(x) {
      var current, target := AsReal(x.currentPrice), AsReal(x.targetPrice);
      opportunities := opportunities + [Upside((target - current) / current * 100.0)];
    }
    opportunities := opportunities + [LeveragePosition(industry)];
  }

  /** The threats block; the two closing entries are always appended. */
  method CollectThreats(x: Ratios, industry: string) returns (threats: seq<Item>)
    ensures threats == Threats(x, industry)
  {
    threats := [];
    if Above(x.beta, BetaBar) {
      threats := threats + [HighBeta(x.beta)];
    }
    if Above(x.debtToEquity, DebtThreatBar) {
      threats := threats + [ElevatedDebt];
    }
    threats := threats + [Competition(industry), MarketVolatility];
  }
}
