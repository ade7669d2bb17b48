/** The dispatcher behind the simple app's "Analyze" button
    (`analyze_company` in simple_app.py): a ticker guard, then the analysis
    type picks one of the three tools of that app. */
module SimpleApp {
  import opened Py
  import opened Strings
  import InfoTools

  const EnterTicker: string := "Please enter a stock ticker (e.g., AAPL, MSFT)"
  const SelectType: string := "Please select an analysis type"

  const MetricsType: string := "Financial Metrics"
  const MaType: string := "M&A Analysis"
  const SwotType: string := "SWOT Analysis"

  /** `analyze_company(ticker, analysis_type)`; `quotes` is what the quote
      service answers for each (upper-cased) ticker. */
  function AnalyzeCompany(ticker: string, analysisType: string, quotes: string -> InfoTools.Ticker, r: Render): string {
    if ticker == "" then EnterTicker
    else
      var t := Upper(ticker);
      if analysisType == MetricsType then InfoTools.MetricsCall(t, "summary", quotes(t), InfoTools.SimpleApp, r)
      else if analysisType == MaType then InfoTools.MaCall(t, quotes(t), InfoTools.SimpleApp, r)
      else if analysisType == SwotType then InfoTools.SwotCall(t, quotes(t), InfoTools.SimpleApp, r)
      else SelectType
  }

  /** An empty ticker gets the prompt whatever the type; otherwise a type
      that is none of the three exact names gets the select prompt. */
  lemma AnalyzeGuards(ticker: string, analysisType: string, quotes: string -> InfoTools.Ticker, r: Render)
    ensures ticker == "" ==> AnalyzeCompany(ticker, analysisType, quotes, r) == EnterTicker
    ensures ticker != "" && analysisType !in {MetricsType, MaType, SwotType} ==>
      AnalyzeCompany(ticker, analysisType, quotes, r) == SelectType
  {
  }

  /** The ticker is upper-cased before any tool sees it, so the answer does
      not depend on the case the ticker was typed in. */
  lemma AnalyzeIgnoresCase(ticker: string, analysisType: string, quotes: string -> InfoTools.Ticker, r: Render)
    ensures AnalyzeCompany(Upper(ticker), analysisType, quotes, r) == AnalyzeCompany(ticker, analysisType, quotes, r)
  {
    UpperIdempotent(ticker);
    assert |Upper(ticker)| == |ticker|;
  }
}
