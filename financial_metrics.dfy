/** The financial-metrics tool of the agent (`FinancialMetricsTool`): the
    summary and ratio tables it reads out of the quote service's `info`
    dictionary, the price-history summary, the `metrics_type` dispatch, and
    the recursive `_format_dict` that prints a nested dictionary as indented
    `Key: value` lines with large numbers scaled to millions and billions. */
module FinancialMetrics {
  import opened Py
  import opened Strings

  const NA: Value := Text("N/A")

  // ---------------------------------------------------------------------
  // _format_dict

  /** The four ways `_format_dict` prints a number (never a boolean), by
      its absolute value: over a billion, over a million, over a thousand,
      or anything smaller. */
  datatype Magnitude = Billions(x: real) | Millions(x: real) | Thousands(x: real) | Units(x: real)

  function Abs(x: real): real {
    if x < 0.0 then -x else x
  }

  /** The bucket of a number, holding the number as it is printed: divided
      by a billion or a million in the first two buckets, as is in the other
      two. */
  function MagnitudeOf(v: real): (m: Magnitude)
    ensures m.Billions? <==> Abs(v) > 1000000000.0
    ensures m.Millions? <==> 1000000.0 < Abs(v) <= 1000000000.0
    ensures m.Thousands? <==> 1000.0 < Abs(v) <= 1000000.0
    ensures m.Units? <==> Abs(v) <= 1000.0
    ensures m.Billions? ==> m.x * 1000000000.0 == v
    ensures m.Millions? ==> m.x * 1000000.0 == v
    ensures m.Thousands? || m.Units? ==> m.x == v
  {
    if Abs(v) > 1000000000.0 then Billions(v / 1000000000.0)
    else if Abs(v) > 1000000.0 then Millions(v / 1000000.0)
    else if Abs(v) > 1000.0 then Thousands(v)
    else Units(v)
  }

  /** A scaled figure is never below one unit of its scale, and a figure in
      millions never reaches more than a thousand of them. */
  lemma ScaledFigureBounds(v: real)
    ensures MagnitudeOf(v).Billions? ==> Abs(MagnitudeOf(v).x) > 1.0
    ensures MagnitudeOf(v).Millions? ==> 1.0 < Abs(MagnitudeOf(v).x) <= 1000.0
  {
    var m := MagnitudeOf(v);
    if m.Billions? {
      assert Abs(m.x) * 1000000000.0 == Abs(v);
    }
    if m.Millions? {
      assert Abs(m.x) * 1000000.0 == Abs(v);
    }
  }

  /** `f"${v / 1e9:.2f}B"`, `f"${v / 1e6:.2f}M"`, `f"{v:,.2f}"`, `f"{v:.4f}"`. */
  function MagnitudeText(m: Magnitude, r: Render): string {
    match m
    case Billions(x) => "$" + r.number(Fixed(2), x) + "B"
    case Millions(x) => "$" + r.number(Fixed(2), x) + "M"
    case Thousands(x) => r.number(Grouped(2), x)
    case Units(x) => r.number(Fixed(4), x)
  }

  /** How a value that is not a dictionary is printed: an `int` or `float`
      by its magnitude, everything else (booleans included) by `str`. */
  function LeafText(v: Value, r: Render): (t: string)
    ensures v.Bool? ==> t == (if v.b then "True" else "False")
    ensures v.Text? ==> t == v.s
  {
    if v.Num? then MagnitudeText(MagnitudeOf(v.x), r) else Str(v, r)
  }

  /** `key.replace('_', ' ').title()`. */
  function KeyTitle(key: string): string {
    Title(ReplaceChar(key, '_', ' '))
  }

  /** `'  ' * indent`. */
  function Indent(indent: nat): string {
    Repeat(' ', 2 * indent)
  }

  /** The line of a key whose value is not a dictionary. */
  function LeafLine(key: string, v: Value, indent: nat, r: Render): string {
    Indent(indent) + KeyTitle(key) + ": " + LeafText(v, r) + "\n"
  }

  /** What `_format_dict(data, indent)` returns: the entries in dictionary
      order; a nested dictionary prints its raw key and a colon, then its
      own entries one level deeper. */
  function FormatDict(es: seq<Entry>, indent: nat, r: Render): string
    decreases es
  {
    if es == [] then ""
    else
      var e := es[|es| - 1];
      FormatDict(es[..|es| - 1], indent, r)
      + (if e.val.Dict? then Indent(indent) + e.key + ":\n" + FormatDict(e.val.entries, indent + 1, r)
         else LeafLine(e.key, e.val, indent, r))
  }

  /** `_format_dict`: the loop over the items, recursing into nested
      dictionaries. */
  method FormatDictMethod(es: seq<Entry>, indent: nat, r: Render) returns (output: string)
    ensures output == FormatDict(es, indent, r)
    decreases es
  {
    output := "";
    for k := 0 to |es|
      invariant output == FormatDict(es[..k], indent, r)
    {
      var e := es[k];
      assert es[..k + 1][..k] == es[..k];
      if e.val.Dict? {
        var header := Indent(indent) + e.key + ":\n";
        output := output + header;
        var nested := FormatDictMethod(e.val.entries, indent + 1, r);
        AppendAssoc(FormatDict(es[..k], indent, r), header, nested);
        output := output + nested;
      } else {
        output := output + LeafLine(e.key, e.val, indent, r);
      }
    }
    assert es[..|es|] == es;
  }

  /** One printed line: its nesting depth and the text after the indent. */
  datatype Line = Line(depth: nat, text: string)

  /** The lines of a nested dictionary in the order they are printed: each
      key, then (for a nested dictionary) its own lines one level deeper. */
  function Outline(es: seq<Entry>, indent: nat, r: Render): seq<Line>
    decreases es
  {
    if es == [] then []
    else
      var e := es[|es| - 1];
      Outline(es[..|es| - 1], indent, r)
      + (if e.val.Dict? then [Line(indent, e.key + ":")] + Outline(e.val.entries, indent + 1, r)
         else [Line(indent, KeyTitle(e.key) + ": " + LeafText(e.val, r))])
  }

  function Printed(lines: seq<Line>): (p: seq<string>)
    ensures |p| == |lines|
    ensures forall i :: 0 <= i < |lines| ==> p[i] == Indent(lines[i].depth) + lines[i].text + "\n"
  {
    seq(|lines|, i requires 0 <= i < |lines| => Indent(lines[i].depth) + lines[i].text + "\n")
  }

  lemma ConcatCons(x: string, rest: seq<string>)
    ensures Concat([x] + rest) == x + Concat(rest)
  {
    ConcatAppend([x], rest);
    assert [x][..0] == [];
  }

  lemma PrintedAppend(a: seq<Line>, b: seq<Line>)
    ensures Printed(a + b) == Printed(a) + Printed(b)
  {
  }

  /** The text of the lines a dictionary entry contributes. */
  lemma EntryPrinted(e: Entry, indent: nat, r: Render)
    ensures e.val.Dict? ==>
      Concat(Printed([Line(indent, e.key + ":")] + Outline(e.val.entries, indent + 1, r)))
      == Indent(indent) + e.key + ":\n" + Concat(Printed(Outline(e.val.entries, indent + 1, r)))
    ensures !e.val.Dict? ==>
      Concat(Printed([Line(indent, KeyTitle(e.key) + ": " + LeafText(e.val, r))]))
      == LeafLine(e.key, e.val, indent, r)
  {
    if e.val.Dict? {
      var head := Line(indent, e.key + ":");
      var sub := Outline(e.val.entries, indent + 1, r);
      PrintedAppend([head], sub);
      var h := Indent(indent) + (e.key + ":") + "\n";
      assert Printed([head]) == [h];
      ConcatCons(h, Printed(sub));
      assert h == Indent(indent) + e.key + ":\n";
    } else {
      var kt, lt := KeyTitle(e.key), LeafText(e.val, r);
      var line := Line(indent, kt + ": " + lt);
      AppendAssoc(Indent(indent), kt + ": ", lt);
      AppendAssoc(Indent(indent), kt, ": ");
      assert Printed([line]) == [LeafLine(e.key, e.val, indent, r)];
      ConcatCons(LeafLine(e.key, e.val, indent, r), []);
    }
  }

  /** `_format_dict` prints exactly the outline, one line per key, each
      indented two spaces per level of nesting. */
  lemma {:induction false} FormatIsOutline(es: seq<Entry>, indent: nat, r: Render)
    ensures FormatDict(es, indent, r) == Concat(Printed(Outline(es, indent, r)))
    decreases es
  {
    if es != [] {
      var e := es[|es| - 1];
      var front := es[..|es| - 1];
      FormatIsOutline(front, indent, r);
      var o := Outline(front, indent, r);
      var tail := if e.val.Dict? then [Line(indent, e.key + ":")] + Outline(e.val.entries, indent + 1, r)
                  else [Line(indent, KeyTitle(e.key) + ": " + LeafText(e.val, r))];
      assert Outline(es, indent, r) == o + tail;
      PrintedAppend(o, tail);
      ConcatAppend(Printed(o), Printed(tail));
      EntryPrinted(e, indent, r);
      if e.val.Dict? {
        FormatIsOutline(e.val.entries, indent + 1, r);
      }
    }
  }

  /** The number of keys in a nested dictionary, nested keys included. */
  function KeyCount(es: seq<Entry>): nat
    decreases es
  {
    if es == [] then 0
    else
      var e := es[|es| - 1];
      KeyCount(es[..|es| - 1]) + 1 + (if e.val.Dict? then KeyCount(e.val.entries) else 0)
  }

  /** One line per key, none of them shallower than the starting indent. */
  lemma {:induction false} OutlineShape(es: seq<Entry>, indent: nat, r: Render)
    ensures |Outline(es, indent, r)| == KeyCount(es)
    ensures forall i :: 0 <= i < |Outline(es, indent, r)| ==> Outline(es, indent, r)[i].depth >= indent
    decreases es
  {
    if es != [] {
      var e := es[|es| - 1];
      OutlineShape(es[..|es| - 1], indent, r);
      if e.val.Dict? {
        OutlineShape(e.val.entries, indent + 1, r);
      }
    }
  }

  /** A dictionary without nested dictionaries prints one line per entry,
      in order, at the starting indent. */
  lemma {:induction false} FlatOutline(es: seq<Entry>, indent: nat, r: Render)
    requires forall i :: 0 <= i < |es| ==> !es[i].val.Dict?
    ensures |Outline(es, indent, r)| == |es|
    ensures forall i :: 0 <= i < |es| ==>
      Outline(es, indent, r)[i] == Line(indent, KeyTitle(es[i].key) + ": " + LeafText(es[i].val, r))
    decreases es
  {
    if es != [] {
      FlatOutline(es[..|es| - 1], indent, r);
    }
  }

  // ---------------------------------------------------------------------
  // The tables read out of `info`

  /** An output key and the `info` key it is read from. */
  datatype Field = Field(name: string, source: string)

  /** The keys of `_get_summary_metrics`, in dictionary order. */
  const SummaryFields: seq<Field> := [
    Field("company_name", "longName"),
    Field("sector", "sector"),
    Field("industry", "industry"),
    Field("market_cap", "marketCap"),
    Field("current_price", "currentPrice"),
    Field("52_week_high", "fiftyTwoWeekHigh"),
    Field("52_week_low", "fiftyTwoWeekLow"),
    Field("pe_ratio", "trailingPE"),
    Field("forward_pe", "forwardPE"),
    Field("price_to_book", "priceToBook"),
    Field("revenue", "totalRevenue"),
    Field("revenue_growth", "revenueGrowth"),
    Field("profit_margin", "profitMargins"),
    Field("operating_margin", "operatingMargins"),
    Field("roe", "returnOnEquity"),
    Field("roa", "returnOnAssets"),
    Field("debt_to_equity", "debtToEquity"),
    Field("dividend_yield", "dividendYield"),
    Field("analyst_recommendation", "recommendationKey")
  ]

  /** A group of `_get_financial_ratios` and its keys. */
  datatype Group = Group(name: string, fields: seq<Field>)

  const RatioGroups: seq<Group> := [
    Group("profitability_ratios", [
      Field("gross_margin", "grossMargins"),
      Field("operating_margin", "operatingMargins"),
      Field("profit_margin", "profitMargins"),
      Field("roe", "returnOnEquity"),
      Field("roa", "returnOnAssets")]),
    Group("liquidity_ratios", [
      Field("current_ratio", "currentRatio"),
      Field("quick_ratio", "quickRatio")]),
    Group("leverage_ratios", [
      Field("debt_to_equity", "debtToEquity"),
      Field("debt_to_assets", "debtToAssets")]),
    Group("valuation_ratios", [
      Field("pe_ratio", "trailingPE"),
      Field("forward_pe", "forwardPE"),
      Field("peg_ratio", "pegRatio"),
      Field("price_to_book", "priceToBook"),
      Field("price_to_sales", "priceToSalesTrailing12Months"),
      Field("ev_to_revenue", "enterpriseToRevenue"),
      Field("ev_to_ebitda", "enterpriseToEbitda")]),
    Group("efficiency_ratios", [
      Field("asset_turnover", "assetTurnover"),
      Field("inventory_turnover", "inventoryTurnover")])
  ]

  /** The dictionary `{f.name: info.get(f.source, "N/A") for f in fields}`. */
  function Table(info: seq<Entry>, fields: seq<Field>): (t: seq<Entry>)
    ensures |t| == |fields|
    ensures forall i :: 0 <= i < |fields| ==> t[i].key == fields[i].name
    ensures forall i :: 0 <= i < |fields| ==>
      (HasKey(info, fields[i].source) ==> t[i].val == Lookup(info, fields[i].source).value)
    ensures forall i :: 0 <= i < |fields| ==> (!HasKey(info, fields[i].source) ==> t[i].val == NA)
  {
    seq(|fields|, i requires 0 <= i < |fields| => Entry(fields[i].name, Get(info, fields[i].source, NA)))
  }

  function SummaryMetrics(info: seq<Entry>): seq<Entry> {
    Table(info, SummaryFields)
  }

  function FinancialRatios(info: seq<Entry>): (t: seq<Entry>)
    ensures |t| == |RatioGroups|
    ensures forall i :: 0 <= i < |RatioGroups| ==>
      t[i] == Entry(RatioGroups[i].name, Dict(Table(info, RatioGroups[i].fields)))
  {
    seq(|RatioGroups|, i requires 0 <= i < |RatioGroups| =>
      Entry(RatioGroups[i].name, Dict(Table(info, RatioGroups[i].fields))))
  }

  /** When none of the values it reads is itself a dictionary, the summary
      prints one line per summary key, at the left margin, each showing the
      `info` value or "N/A" when `info` lacks that key. */
  lemma SummaryLines(info: seq<Entry>, r: Render)
    requires forall i :: 0 <= i < |SummaryFields| ==> !Get(info, SummaryFields[i].source, NA).Dict?
    ensures |Outline(SummaryMetrics(info), 0, r)| == |SummaryFields|
    ensures forall i :: 0 <= i < |SummaryFields| ==>
      Outline(SummaryMetrics(info), 0, r)[i] ==
        Line(0, KeyTitle(SummaryFields[i].name) + ": " + LeafText(Get(info, SummaryFields[i].source, NA), r))
  {
    var t := SummaryMetrics(info);
    forall i | 0 <= i < |t|
      ensures !t[i].val.Dict?
    {
      assert t[i].val == Get(info, SummaryFields[i].source, NA);
    }
    FlatOutline(t, 0, r);
  }

  // ---------------------------------------------------------------------
  // _get_historical_data

  /** What the price-history frame yields, computed by the data-frame
      library: row count, last close, period high and low, mean volume and
      the percentage change from the first close to the last. */
  datatype Stats = Stats(dataPoints: nat, latestClose: real, periodHigh: real, periodLow: real,
                         averageVolume: real, changePercent: real)

  /** The history dictionary; an empty frame (`None`) gives the error
      dictionary instead. */
  function HistoricalData(history: Option<Stats>, period: string): (d: seq<Entry>)
    ensures history.None? <==> d == [Entry("error", Text("No historical data available"))]
    ensures history.Some? ==> |d| == 7 && d[0] == Entry("period", Text(period))
  {
    match history
    case None => [Entry("error", Text("No historical data available"))]
    case Some(s) => [
      Entry("period", Text(period)),
      Entry("data_points", Num(s.dataPoints as real)),
      Entry("latest_close", Num(s.latestClose)),
      Entry("period_high", Num(s.periodHigh)),
      Entry("period_low", Num(s.periodLow)),
      Entry("average_volume", Num(s.averageVolume)),
      Entry("price_change_percent", Num(s.changePercent))]
  }

  // ---------------------------------------------------------------------
  // __call__

  /** What the quote service returns for one ticker: its `info` dictionary
      and its one-year price history (`None` when the frame is empty), each
      of which may fail to arrive. */
  datatype Quote = Quote(info: Result<seq<Entry>>, history: Result<Option<Stats>>)

  /** The dictionary a `metrics_type` asks for; `None` for an unknown type.
      A failed fetch raises, the `detailed` type reading summary, ratios and
      history in that order. */
  function Metrics(q: Quote, metricsType: string): (m: Option<Result<seq<Entry>>>)
    ensures m.None? <==> metricsType !in {"summary", "ratios", "historical", "detailed"}
    ensures m.Some? && m.value.Ok? ==> (metricsType == "historical" ==> q.history.Ok?)
    ensures m.Some? && m.value.Ok? ==> (metricsType != "historical" ==> q.info.Ok?)
    ensures metricsType == "detailed" && m.value.Ok? ==>
      |m.value.value| == 3 && m.value.value[0].key == "summary" &&
      m.value.value[1].key == "ratios" && m.value.value[2].key == "historical_1y"
  {
    if metricsType == "summary" then
      Some(match q.info case Ok(info) => Ok(SummaryMetrics(info)) case Raise(e) => Raise(e))
    else if metricsType == "ratios" then
      Some(match q.info case Ok(info) => Ok(FinancialRatios(info)) case Raise(e) => Raise(e))
    else if metricsType == "historical" then
      Some(match q.history case Ok(h) => Ok(HistoricalData(h, "1y")) case Raise(e) => Raise(e))
    else if metricsType == "detailed" then
      Some(match (q.info, q.history)
           case (Raise(e), _) => Raise(e)
           case (Ok(info), Raise(e)) => Raise(e)
           case (Ok(info), Ok(h)) => Ok([Entry("summary", Dict(SummaryMetrics(info))),
                                        Entry("ratios", Dict(FinancialRatios(info))),
                                        Entry("historical_1y", Dict(HistoricalData(h, "1y")))]))
    else None
  }

  function UnknownType(metricsType: string): string {
    "Error: Unknown metrics_type '" + metricsType + "'"
  }

  function FetchError(ticker: string, e: PyError, r: Render): string {
    "Error fetching financial metrics for " + ticker + ": " + r.error(e)
  }

  function Heading(ticker: string, metricsType: string): string {
    "Financial Metrics for " + Upper(ticker) + " (" + metricsType + "):\n\n"
  }

  /** `FinancialMetricsTool.__call__(ticker, metrics_type)`. */
  function MetricsCall(ticker: string, metricsType: string, q: Quote, r: Render): string {
    match Metrics(q, metricsType)
    case None => UnknownType(metricsType)
    case Some(Raise(e)) => FetchError(ticker, e, r)
    case Some(Ok(m)) => Heading(ticker, metricsType) + FormatDict(m, 0, r)
  }

  /** An unknown type is refused before anything is fetched; a known type
      whose data fails to arrive reports the failure; otherwise the heading
      names the upper-cased ticker and the type, followed by the printed
      lines of the dictionary. */
  lemma MetricsCallCases(ticker: string, metricsType: string, q: Quote, r: Render)
    ensures metricsType !in {"summary", "ratios", "historical", "detailed"} ==>
      MetricsCall(ticker, metricsType, q, r) == UnknownType(metricsType)
    ensures metricsType in {"summary", "ratios", "detailed"} && q.info.Raise? ==>
      MetricsCall(ticker, metricsType, q, r) == FetchError(ticker, q.info.error, r)
    ensures metricsType == "historical" && q.history.Raise? ==>
      MetricsCall(ticker, metricsType, q, r) == FetchError(ticker, q.history.error, r)
    ensures metricsType in {"summary", "ratios", "historical", "detailed"} && q.info.Ok? && q.history.Ok? ==>
      MetricsCall(ticker, metricsType, q, r) ==
        Heading(ticker, metricsType) + Concat(Printed(Outline(Metrics(q, metricsType).value.value, 0, r)))
  {
    var m := Metrics(q, metricsType);
    if m.Some? && m.value.Ok? {
      FormatIsOutline(m.value.value, 0, r);
    }
  }

  /** `__call__` with its `output +=` steps. */
  method MetricsTool(ticker: string, metricsType: string, q: Quote, r: Render) returns (out: string)
    ensures out == MetricsCall(ticker, metricsType, q, r)
  {
    var m := Metrics(q, metricsType);
    if m.None? {
      return UnknownType(metricsType);
    }
    if m.value.Raise? {
      return FetchError(ticker, m.value.error, r);
    }
    out := Heading(ticker, metricsType);
    var body := FormatDictMethod(m.value.value, 0, r);
    out := out + body;
  }
}
