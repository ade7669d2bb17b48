/** `FinancialAnalystUI` of the agent package: the ticker guards in front of
    the three tools, the keyword fallback that answers a chat message when no
    agent is configured, the chat history the chat tab appends to, and the
    "Analyze" button's dispatcher. */
module AnalystUi {
  import opened Py
  import opened Strings
  import FinancialMetrics
  import MaAnalyzer
  import SwotAnalyzer

  /** What the UI talks to: the quote service as each tool sees it (per
      upper-cased ticker), the LLM agent if one could be created (a call may
      raise), and the rendering of numbers and exceptions. The M&A tool is
      created without an LLM client. */
  datatype Services = Services(
    metrics: string -> FinancialMetrics.Quote,
    ma: string -> MaAnalyzer.Quote,
    swot: string -> SwotAnalyzer.Ticker,
    agent: Option<string -> Result<Value>>,
    r: Render)

  const EnterTicker: string := "Please enter a stock ticker symbol (e.g., AAPL, MSFT)"

  // ---------------------------------------------------------------------
  // get_* guards

  function GetFinancialMetrics(s: Services, ticker: string, metricsType: string): string {
    if ticker == "" then EnterTicker
    else FinancialMetrics.MetricsCall(Upper(ticker), metricsType, s.metrics(Upper(ticker)), s.r)
  }

  function GetMaAnalysis(s: Services, ticker: string): string {
    if ticker == "" then EnterTicker
    else MaAnalyzer.MaCall(Upper(ticker), s.ma(Upper(ticker)), false, s.r)
  }

  function GetSwotAnalysis(s: Services, ticker: string): string {
    if ticker == "" then EnterTicker
    else SwotAnalyzer.SwotCall(Upper(ticker), s.swot(Upper(ticker)), s.r)
  }

  /** Each guard answers an empty ticker with the prompt and hands any other
      ticker to its tool upper-cased, so typing it in lower case changes
      nothing. */
  lemma GuardsIgnoreCase(s: Services, ticker: string, metricsType: string)
    ensures ticker == "" ==>
      GetFinancialMetrics(s, ticker, metricsType) == EnterTicker &&
      GetMaAnalysis(s, ticker) == EnterTicker && GetSwotAnalysis(s, ticker) == EnterTicker
    ensures GetFinancialMetrics(s, Upper(ticker), metricsType) == GetFinancialMetrics(s, ticker, metricsType)
    ensures GetMaAnalysis(s, Upper(ticker)) == GetMaAnalysis(s, ticker)
    ensures GetSwotAnalysis(s, Upper(ticker)) == GetSwotAnalysis(s, ticker)
  {
    UpperIdempotent(ticker);
    assert |Upper(ticker)| == |ticker|;
  }

  // ---------------------------------------------------------------------
  // _fallback_response

  const SwotWords: seq<string> := ["swot", "strengths", "weaknesses", "opportunities", "threats"]
  const MaWords: seq<string> := ["m&a", "merger", "acquisition", "ma activity"]

  const Help: string :=
    "I can help you analyze companies! Please provide a stock ticker symbol (e.g., AAPL, MSFT, GOOGL).\n\n"
    + "I can provide:\n"
    + "- Financial metrics and ratios\n"
    + "- M&A activity analysis\n"
    + "- SWOT analysis\n\n"
    + "Try asking: \"Analyze AAPL\" or \"What are the financial metrics for Microsoft?\"\n"

  /** `len(w) <= 5 and w.isalpha()`: there is no lower bound on the length. */
  predicate IsCandidate(w: string) {
    |w| <= 5 && IsAlpha(w)
  }

  /** The ticker candidates: the words of the upper-cased message that pass
      the test, in order. */
  function Candidates(message: string): seq<string> {
    Filter(Split(Upper(message)), IsCandidate)
  }

  /** A candidate is exactly a word of the upper-cased message of one to
      five letters; the candidates keep the order of the message, and each
      is made of upper-case letters. */
  lemma CandidatesMeans(message: string)
    ensures forall c :: c in Candidates(message) <==> c in Split(Upper(message)) && |c| <= 5 && IsAlpha(c)
    ensures Subsequence(Candidates(message), Split(Upper(message)))
    ensures forall c :: c in Candidates(message) ==>
      1 <= |c| <= 5 && forall k :: 0 <= k < |c| ==> IsUpperLetter(c[k])
  {
    var words := Split(Upper(message));
    FilterIsFilter(words, IsCandidate);
    var notLower := (ch: char) => !IsLowerLetter(ch);
    SplitKeeps(Upper(message), "", notLower);
    forall c | c in Candidates(message)
      ensures 1 <= |c| <= 5 && forall k :: 0 <= k < |c| ==> IsUpperLetter(c[k])
    {
      forall k | 0 <= k < |c| ensures IsUpperLetter(c[k]) {
        assert IsLetter(c[k]) && notLower(c[k]);
      }
    }
  }

  /** Which tool the fallback calls. */
  datatype Choice = SwotAnalysis | MaAnalysis | Summary

  /** Keyword tests in a strict order: SWOT, then M&A, else the summary
      metrics. */
  function SelectTool(lower: string): (c: Choice)
    ensures c == SwotAnalysis <==> AnyIn(SwotWords, lower)
    ensures c == MaAnalysis <==> !AnyIn(SwotWords, lower) && AnyIn(MaWords, lower)
    ensures c == Summary <==> !AnyIn(SwotWords, lower) && !AnyIn(MaWords, lower)
  {
    if AnyIn(SwotWords, lower) then SwotAnalysis
    else if AnyIn(MaWords, lower) then MaAnalysis
    else Summary
  }

  /** `_fallback_response(message)`: the help text when no word can be a
      ticker, otherwise the chosen tool on the first candidate. */
  function FallbackResponse(s: Services, message: string): string {
    var candidates := Candidates(message);
    if candidates == [] then Help
    else RunChoice(s, SelectTool(Lower(message)), candidates[0])
  }

  /** The guard of the chosen tool, called on `ticker`. */
  function RunChoice(s: Services, c: Choice, ticker: string): string {
    match c
    case SwotAnalysis => GetSwotAnalysis(s, ticker)
    case MaAnalysis => GetMaAnalysis(s, ticker)
    case Summary => GetFinancialMetrics(s, ticker, "summary")
  }

  /** Without a candidate the help text comes back and no tool runs; with
      one, the first candidate is the ticker of the tool the keywords
      select. */
  lemma FallbackCases(s: Services, message: string)
    ensures Candidates(message) == [] ==> FallbackResponse(s, message) == Help
    ensures Candidates(message) != [] ==>
      var t := Candidates(message)[0];
      var lower := Lower(message);
      (AnyIn(SwotWords, lower) ==> FallbackResponse(s, message) == GetSwotAnalysis(s, t)) &&
      (!AnyIn(SwotWords, lower) && AnyIn(MaWords, lower) ==> FallbackResponse(s, message) == GetMaAnalysis(s, t)) &&
      (!AnyIn(SwotWords, lower) && !AnyIn(MaWords, lower) ==>
        FallbackResponse(s, message) == GetFinancialMetrics(s, t, "summary"))
  {
  }

  /** A message that opens with a word of at most five letters takes that
      word, upper-cased, as the ticker, whatever follows. */
  lemma FirstShortWordIsTicker(w: string, rest: string)
    requires IsCandidate(w)
    ensures Candidates(w + " " + rest) != [] && Candidates(w + " " + rest)[0] == Upper(w)
  {
    var message := w + " " + rest;
    UpperSpaced(w, rest);
    UpperCandidate(w);
    SplitFirstWord(Upper(w), Upper(rest), "");
    assert "" + Upper(w) == Upper(w);
    var words := Split(Upper(message));
    assert words[0] == Upper(w);
    FilterHead(words, IsCandidate);
  }

  /** Upper-casing works character by character, so it keeps the space
      between the first word and the rest. */
  lemma UpperSpaced(w: string, rest: string)
    ensures Upper(w + " " + rest) == Upper(w) + " " + Upper(rest)
  {
    var m := w + " " + rest;
    assert forall i :: 0 <= i < |m| ==> Upper(m)[i] == (Upper(w) + " " + Upper(rest))[i];
  }

  /** An upper-cased candidate is still a candidate and holds no space. */
  lemma UpperCandidate(w: string)
    requires IsCandidate(w)
    ensures IsCandidate(Upper(w))
    ensures forall k :: 0 <= k < |Upper(w)| ==> !IsSpace(Upper(w)[k])
  {
    forall k | 0 <= k < |w| ensures IsLetter(Upper(w)[k]) && !IsSpace(Upper(w)[k]) {
      assert IsLetter(w[k]);
    }
  }

  /** The help text's own example "What are the financial metrics for
      Microsoft?" is answered for the ticker "WHAT". */
  lemma HelpExampleTicker()
    ensures var m := "What " + "are the financial metrics for Microsoft?";
      Candidates(m) != [] && Candidates(m)[0] == "WHAT"
  {
    var w, rest := "What", "are the financial metrics for Microsoft?";
    WhatIsCandidate();
    FirstShortWordIsTicker(w, rest);
    assert w + " " == "What ";
  }

  lemma WhatIsCandidate()
    ensures IsCandidate("What") && Upper("What") == "WHAT"
  {
    var w := "What";
    assert forall k :: 0 <= k < 4 ==> IsLetter(w[k]);
    assert Upper(w) == "WHAT";
  }

  // ---------------------------------------------------------------------
  // chat_with_agent

  /** One entry of the chat history: `{"role": ..., "content": ...}`. */
  datatype Message = Message(role: string, content: Value)

  function ErrorText(e: PyError, r: Render): string {
    "Error: " + r.error(e)
  }

  /** The assistant's entry for `message`: the agent's `output` (or "No
      response generated"), the fallback when there is no agent, or the text
      of whatever exception the agent call raised. */
  function Reply(s: Services, message: string): Value {
    match s.agent
    case None => Text(FallbackResponse(s, message))
    case Some(query) =>
      match query(message)
      case Raise(e) => Text(ErrorText(e, s.r))
      case Ok(response) =>
        if response.Dict? then Get(response.entries, "output", Text("No response generated"))
        else Text(ErrorText(NoAttribute(response, "get"), s.r))
  }

  /** The history after `chat_with_agent(message, history)`. */
  function Chat(history: seq<Message>, message: string, s: Services): seq<Message> {
    if message == "" then history
    else history + [Message("user", Text(message)), Message("assistant", Reply(s, message))]
  }

  /** An empty message leaves the history alone; any other message adds
      exactly two entries after the old ones, the user's message and then
      the assistant's reply. */
  lemma ChatAppendsTwo(history: seq<Message>, message: string, s: Services)
    ensures message == "" ==> Chat(history, message, s) == history
    ensures message != "" ==>
      var h := Chat(history, message, s);
      |h| == |history| + 2 && h[..|history|] == history &&
      h[|history|] == Message("user", Text(message)) &&
      h[|history| + 1].role == "assistant"
  {
    if message != "" {
      var h := Chat(history, message, s);
      assert h[..|history|] == history;
    }
  }

  /** An exception from the agent becomes an "Error: ..." reply instead of
      escaping, and without an agent the reply is the fallback's. */
  lemma ReplyCases(s: Services, message: string)
    ensures s.agent.None? ==> Reply(s, message) == Text(FallbackResponse(s, message))
    ensures s.agent.Some? && s.agent.value(message).Raise? ==>
      Reply(s, message).Text? && StartsWith(Reply(s, message).s, "Error: ")
    ensures s.agent.Some? && s.agent.value(message).Ok? && s.agent.value(message).value.Dict? ==>
      var es := s.agent.value(message).value.entries;
      Reply(s, message) == (if HasKey(es, "output") then Lookup(es, "output").value else Text("No response generated"))
    ensures s.agent.Some? && s.agent.value(message).Ok? && !s.agent.value(message).value.Dict? ==>
      Reply(s, message).Text? && StartsWith(Reply(s, message).s, "Error: ")
  {
    if s.agent.Some? && s.agent.value(message).Raise? {
      StartsWithJoin("Error: ", s.r.error(s.agent.value(message).error));
    } else if s.agent.Some? && !s.agent.value(message).value.Dict? {
      StartsWithJoin("Error: ", s.r.error(NoAttribute(s.agent.value(message).value, "get")));
    }
  }

  /** The history list of the chat tab. */
  class ChatLog {
    var messages: seq<Message>

    constructor (history: seq<Message>)
      ensures messages == history
    {
      messages := history;
    }

    /** `chat_with_agent`: appends to the history in place and returns ""
        to clear the input box. */
    method ChatWithAgent(message: string, s: Services) returns (cleared: string)
      modifies this
      ensures messages == Chat(old(messages), message, s)
      ensures cleared == ""
    {
      if message == "" {
        return "";
      }
      messages := messages + [Message("user", Text(message))];
      var reply: Value;
      match s.agent {
        case None =>
          reply := Text(FallbackResponse(s, message));
        case Some(query) =>
          var response := query(message);
          if response.Raise? {
            reply := Text(ErrorText(response.error, s.r));
          } else if !response.value.Dict? {
            reply := Text(ErrorText(NoAttribute(response.value, "get"), s.r));
          } else {
            reply := Get(response.value.entries, "output", Text("No response generated"));
          }
      }
      messages := messages + [Message("assistant", reply)];
      cleared := "";
    }
  }

  // ---------------------------------------------------------------------
  // run_analysis

  const SelectTicker: string := "Please select or enter a company ticker symbol"

  /** `run_analysis(ticker, analysis_type)`; `None` is the function falling
      off its end for a type it does not know. */
  function RunAnalysis(s: Services, ticker: string, analysisType: string): (out: Option<string>)
    ensures ticker == "" ==> out == Some(SelectTicker)
    ensures ticker != "" ==>
      (out.None? <==> analysisType !in {"Financial Metrics", "M&A Analysis", "SWOT Analysis"})
  {
    if ticker == "" then Some(SelectTicker)
    else if analysisType == "Financial Metrics" then Some(GetFinancialMetrics(s, ticker, "summary"))
    else if analysisType == "M&A Analysis" then Some(GetMaAnalysis(s, ticker))
    else if analysisType == "SWOT Analysis" then Some(GetSwotAnalysis(s, ticker))
    else None
  }
}
