/** The keyword router of the single-file app (`smart_agent` in
    financial_app_clean.py): find the company a chat message is about, either
    by a company name or by a ticker-like word, then pick one of the tools by
    keywords. */
module SmartAgent {
  import opened Py
  import opened Strings
  import Swot
  import CleanApp

  /** The characters stripped from the ends of a word. */
  const Punctuation: set<char> := {'.', ',', '!', '?'}

  /** Company names the router recognises, and their tickers. */
  const CompanyTickers: map<string, string> := map[
    "apple" := "AAPL", "microsoft" := "MSFT", "google" := "GOOGL", "alphabet" := "GOOGL",
    "meta" := "META", "facebook" := "META", "amazon" := "AMZN", "tesla" := "TSLA",
    "nvidia" := "NVDA", "amd" := "AMD", "intel" := "INTC", "netflix" := "NFLX",
    "disney" := "DIS", "nike" := "NKE", "walmart" := "WMT", "target" := "TGT",
    "jpmorgan" := "JPM", "chase" := "JPM", "goldman" := "GS", "morgan" := "MS",
    "visa" := "V", "mastercard" := "MA", "paypal" := "PYPL", "square" := "SQ",
    "boeing" := "BA", "airbus" := "AIR", "lockheed" := "LMT", "raytheon" := "RTX",
    "pfizer" := "PFE", "moderna" := "MRNA", "johnson" := "JNJ", "abbvie" := "ABBV",
    "exxon" := "XOM", "chevron" := "CVX", "shell" := "SHEL", "bp" := "BP",
    "starbucks" := "SBUX", "mcdonalds" := "MCD", "chipotle" := "CMG",
    "ford" := "F", "gm" := "GM", "general motors" := "GM", "toyota" := "TM"]

  const SwotWords: seq<string> := ["swot", "strengths", "weaknesses", "opportunities", "threats", "strategic"]
  const MaWords: seq<string> := ["m&a", "merger", "acquisition", "deal", "buyout", "acquire"]
  const RatioWords: seq<string> := ["ratio", "ratios", "valuation", "profitability", "leverage"]

  /** The help text's opening line. */
  const HelpHead: string := "I need a company ticker or name to analyze!"

  const Help: string := HelpHead + (
    "\n\nTry asking:\n"
    + "- \"Analyze AAPL\" or \"Analyze Apple\"\n"
    + "- \"What are the financial metrics for Tesla?\"\n"
    + "- \"Give me a SWOT for NVDA\" or \"SWOT for Nvidia\"\n"
    + "- \"M&A activity for Microsoft\"\n\n"
    + "Available: AAPL, MSFT, GOOGL, TSLA, NVDA, AMZN, META, etc.")

  /** The ticker of the first word (lower-cased, punctuation stripped) that
      names a company. */
  function FirstCompany(words: seq<string>, names: map<string, string>): Option<string>
    decreases |words|
  {
    if words == [] then None
    else
      var w := Strip(words[0], Punctuation);
      if w in names then Some(names[w]) else FirstCompany(words[1..], names)
  }

  /** No ticker is found exactly when no word names a company. */
  lemma {:induction false} FirstCompanyNone(words: seq<string>, names: map<string, string>)
    ensures FirstCompany(words, names).None? <==>
      forall i :: 0 <= i < |words| ==> Strip(words[i], Punctuation) !in names
    decreases |words|
  {
    if words != [] && Strip(words[0], Punctuation) !in names {
      var rest := words[1..];
      FirstCompanyNone(rest, names);
      assert FirstCompany(words, names) == FirstCompany(rest, names);
      forall i | 0 < i < |words| ensures words[i] == rest[i - 1] {
      }
    }
  }

  /** A ticker found is the one of a word none of whose predecessors names
      a company. */
  lemma {:induction false} FirstCompanySome(words: seq<string>, names: map<string, string>)
    ensures FirstCompany(words, names).Some? ==>
      exists i :: 0 <= i < |words| && Strip(words[i], Punctuation) in names &&
        FirstCompany(words, names).value == names[Strip(words[i], Punctuation)] &&
        forall j :: 0 <= j < i ==> Strip(words[j], Punctuation) !in names
    decreases |words|
  {
    if words != [] && Strip(words[0], Punctuation) !in names && FirstCompany(words, names).Some? {
      var rest := words[1..];
      FirstCompanySome(rest, names);
      var i :| 0 <= i < |rest| && Strip(rest[i], Punctuation) in names &&
        FirstCompany(words, names).value == names[Strip(rest[i], Punctuation)] &&
        forall j :: 0 <= j < i ==> Strip(rest[j], Punctuation) !in names;
      assert words[i + 1] == rest[i];
      forall j | 0 <= j < i + 1 ensures Strip(words[j], Punctuation) !in names {
        if j > 0 {
          assert words[j] == rest[j - 1];
        }
      }
    }
  }

  /** The first company word wins: the answer is the ticker of a word none of
      whose predecessors names a company, and there is no answer exactly when
      no word does. */
  lemma FirstCompanyMeans(words: seq<string>, names: map<string, string>)
    ensures FirstCompany(words, names).None? <==>
      forall i :: 0 <= i < |words| ==> Strip(words[i], Punctuation) !in names
    ensures FirstCompany(words, names).Some? ==>
      exists i :: 0 <= i < |words| && Strip(words[i], Punctuation) in names &&
        FirstCompany(words, names).value == names[Strip(words[i], Punctuation)] &&
        forall j :: 0 <= j < i ==> Strip(words[j], Punctuation) !in names
  {
    FirstCompanyNone(words, names);
    FirstCompanySome(words, names);
  }

  /** The two-word key 'general motors' is never found: the words of
      `split()` hold no space, and neither does anything stripped from one. */
  lemma GeneralMotorsUnreachable(message: string)
    ensures forall w :: w in Split(Lower(message)) ==> Strip(w, Punctuation) != "general motors"
  {
    SplitWords(Lower(message), "");
    forall w | w in Split(Lower(message))
      ensures Strip(w, Punctuation) != "general motors"
    {
      StripKeeps(w, Punctuation, (c: char) => !IsSpace(c));
      assert IsSpace("general motors"[7]);
    }
  }

  /** The loop over the lower-cased words that stops at the first company
      name. */
  method FindCompany(message: string) returns (ticker: Option<string>)
    ensures ticker == FirstCompany(Split(Lower(message)), CompanyTickers)
  {
    var words := Split(Lower(message));
    ticker := None;
    for i := 0 to |words|
      invariant FirstCompany(words[i..], CompanyTickers) == FirstCompany(words, CompanyTickers)
    {
      assert words[i..][0] == words[i] && words[i..][1..] == words[i + 1..];
      var clean := Strip(words[i], Punctuation);
      if clean in CompanyTickers {
        ticker := Some(CompanyTickers[clean]);
        return;
      }
    }
    assert words[|words|..] == [];
  }

  /** The words of two to five letters, in order: the filter of the
      candidate comprehension. */
  function AlphaWords(words: seq<string>): (kept: seq<string>)
    ensures forall i :: 0 <= i < |kept| ==> 2 <= |kept[i]| <= 5 && IsAlpha(kept[i])
    decreases |words|
  {
    if words == [] then []
    else
      var w := words[0];
      (if 2 <= |w| <= 5 && IsAlpha(w) then [w] else []) + AlphaWords(words[1..])
  }

  /** The filter keeps exactly the words of two to five letters. */
  lemma {:induction false} AlphaWordsMeans(words: seq<string>, c: string)
    ensures c in AlphaWords(words) <==> c in words && 2 <= |c| <= 5 && IsAlpha(c)
    decreases |words|
  {
    if words != [] {
      AlphaWordsMeans(words[1..], c);
      assert words == [words[0]] + words[1..];
    }
  }

  /** `[w.strip('.,!?') for w in words if 2 <= len(w) <= 5 and w.isalpha()]`
      exactly as written: the filter runs on the unstripped word. */
  function CandidatesAsWritten(words: seq<string>): seq<string>
    decreases |words|
  {
    if words == [] then []
    else
      var w := words[0];
      (if 2 <= |w| <= 5 && IsAlpha(w) then [Strip(w, Punctuation)] else []) + CandidatesAsWritten(words[1..])
  }

  /** A word of letters has no punctuation to strip. */
  lemma AlphaUnstripped(w: string)
    requires IsAlpha(w)
    ensures Strip(w, Punctuation) == w
  {
    forall i | 0 <= i < |w| ensures w[i] !in Punctuation {
      assert IsLetter(w[i]);
    }
    StripUntouched(w, Punctuation);
  }

  /** As written, the strip never changes a candidate: a word that passes
      `isalpha()` has no punctuation to strip, so the candidates are the
      words of two to five letters, unchanged. */
  lemma {:induction false} StripIsDead(words: seq<string>)
    ensures CandidatesAsWritten(words) == AlphaWords(words)
    decreases |words|
  {
    if words != [] {
      StripIsDead(words[1..]);
      if 2 <= |words[0]| <= 5 && IsAlpha(words[0]) {
        AlphaUnstripped(words[0]);
      }
    }
  }

  /** Every word with the punctuation stripped from its ends. */
  function Stripped(words: seq<string>): (s: seq<string>)
    ensures |s| == |words| && forall i :: 0 <= i < |words| ==> s[i] == Strip(words[i], Punctuation)
  {
    seq(|words|, i requires 0 <= i < |words| => Strip(words[i], Punctuation))
  }

  /** The candidate filter with the strip done first, so that a ticker
      followed by punctuation ("AAPL?") is still found. */
  function Candidates(words: seq<string>): (c: seq<string>)
    ensures forall i :: 0 <= i < |c| ==> 2 <= |c[i]| <= 5 && IsAlpha(c[i])
  {
    AlphaWords(Stripped(words))
  }

  /** A candidate is exactly a stripped word of two to five letters. */
  lemma CandidatesMeans(words: seq<string>, c: string)
    ensures c in Candidates(words) <==>
      exists i :: 0 <= i < |words| && c == Strip(words[i], Punctuation) && 2 <= |c| <= 5 && IsAlpha(c)
  {
    var s := Stripped(words);
    AlphaWordsMeans(s, c);
    if c in s {
      var i :| 0 <= i < |s| && s[i] == c;
      assert c == Strip(words[i], Punctuation);
    }
  }

  /** As written, the word "AAPL?" is dropped: `?` is not a letter. */
  lemma PunctuatedTickerDropped()
    ensures CandidatesAsWritten(["AAPL?"]) == []
  {
    assert !IsLetter("AAPL?"[4]);
  }

  /** With the strip first, "AAPL?" gives the ticker "AAPL". */
  lemma PunctuatedTickerFound()
    ensures Candidates(["AAPL?"]) == ["AAPL"]
  {
    var w := "AAPL?";
    assert w[0] !in Punctuation;
    assert StripLeft(w, Punctuation) == w;
    assert w[4] in Punctuation;
    var front := w[..4];
    assert StripRight(w, Punctuation) == StripRight(front, Punctuation);
    assert front[3] !in Punctuation;
    assert StripRight(front, Punctuation) == front;
    assert front == "AAPL";
    assert Stripped([w]) == ["AAPL"];
    assert IsAlpha("AAPL") by {
      assert forall i :: 0 <= i < 4 ==> "AAPL"[i] in {'A', 'P', 'L'};
    }
  }

  /** Every word of the upper-cased message is free of lower-case letters. */
  lemma UpperWords(message: string)
    ensures forall w :: w in Split(Upper(message)) ==> forall k :: 0 <= k < |w| ==> !IsLowerLetter(w[k])
  {
    SplitKeeps(Upper(message), "", (ch: char) => !IsLowerLetter(ch));
  }

  /** A word of letters without lower-case letters is upper-case letters. */
  lemma UpperLetters(c: string)
    requires IsAlpha(c) && forall k :: 0 <= k < |c| ==> !IsLowerLetter(c[k])
    ensures forall k :: 0 <= k < |c| ==> IsUpperLetter(c[k])
  {
    forall k | 0 <= k < |c| ensures IsUpperLetter(c[k]) {
      assert IsLetter(c[k]);
    }
  }

  /** As written, the candidates come unchanged from the upper-cased
      message, so they are two to five upper-case letters. */
  lemma CandidatesAsWrittenAreTickers(message: string)
    ensures forall c :: c in CandidatesAsWritten(Split(Upper(message))) ==>
      2 <= |c| <= 5 && forall k :: 0 <= k < |c| ==> IsUpperLetter(c[k])
  {
    var words := Split(Upper(message));
    UpperWords(message);
    StripIsDead(words);
    forall c | c in AlphaWords(words)
      ensures 2 <= |c| <= 5 && forall k :: 0 <= k < |c| ==> IsUpperLetter(c[k])
    {
      AlphaWordsMeans(words, c);
      UpperLetters(c);
    }
  }

  /** One candidate of a text without lower-case letters is two to five
      upper-case letters. */
  lemma CandidateIsTicker(words: seq<string>, c: string)
    requires forall w :: w in words ==> forall k :: 0 <= k < |w| ==> !IsLowerLetter(w[k])
    requires c in Candidates(words)
    ensures 2 <= |c| <= 5 && forall k :: 0 <= k < |c| ==> IsUpperLetter(c[k])
  {
    CandidatesMeans(words, c);
    var i :| 0 <= i < |words| && c == Strip(words[i], Punctuation) && 2 <= |c| <= 5 && IsAlpha(c);
    assert words[i] in words;
    StripKeeps(words[i], Punctuation, (ch: char) => !IsLowerLetter(ch));
    UpperLetters(c);
  }

  /** With the strip done first, the candidates are still two to five
      upper-case letters. */
  lemma CandidatesAreTickers(message: string)
    ensures forall c :: c in Candidates(Split(Upper(message))) ==>
      2 <= |c| <= 5 && forall k :: 0 <= k < |c| ==> IsUpperLetter(c[k])
  {
    UpperWords(message);
    forall c | c in Candidates(Split(Upper(message)))
      ensures 2 <= |c| <= 5 && forall k :: 0 <= k < |c| ==> IsUpperLetter(c[k])
    {
      CandidateIsTicker(Split(Upper(message)), c);
    }
  }

  /** The filter keeps nothing exactly when no word has two to five
      letters. */
  lemma AlphaWordsEmpty(words: seq<string>)
    ensures AlphaWords(words) == [] <==> forall w :: w in words ==> !(2 <= |w| <= 5 && IsAlpha(w))
  {
    forall w | w in words ensures w in AlphaWords(words) <==> 2 <= |w| <= 5 && IsAlpha(w) {
      AlphaWordsMeans(words, w);
    }
    if AlphaWords(words) != [] {
      AlphaWordsMeans(words, AlphaWords(words)[0]);
    }
  }

  /** The ticker the router settles on, as written: a company name first;
      without one, no ticker exactly when no word of the upper-cased message
      has two to five letters (a word with punctuation attached never does),
      else the first such word. */
  function Resolve(message: string): (t: Option<string>)
    ensures FirstCompany(Split(Lower(message)), CompanyTickers).Some? ==> t == FirstCompany(Split(Lower(message)), CompanyTickers)
    ensures FirstCompany(Split(Lower(message)), CompanyTickers).None? ==>
      (t.None? <==> forall w :: w in Split(Upper(message)) ==> !(2 <= |w| <= 5 && IsAlpha(w))) &&
      (t.Some? ==> AlphaWords(Split(Upper(message))) != [] && t.value == AlphaWords(Split(Upper(message)))[0])
  {
    match FirstCompany(Split(Lower(message)), CompanyTickers)
    case Some(t) => Some(t)
    case None =>
      var candidates := CandidatesAsWritten(Split(Upper(message)));
      StripIsDead(Split(Upper(message)));
      AlphaWordsEmpty(Split(Upper(message)));
      if candidates == [] then None else Some(candidates[0])
  }

  /** The router's choice with the corrected candidate filter: a company name
      first, else the first candidate, else none. */
  function ResolveFixed(message: string): (t: Option<string>)
    ensures FirstCompany(Split(Lower(message)), CompanyTickers).Some? ==> t == FirstCompany(Split(Lower(message)), CompanyTickers)
    ensures FirstCompany(Split(Lower(message)), CompanyTickers).None? ==>
      (t.None? <==> Candidates(Split(Upper(message))) == []) &&
      (t.Some? ==> t.value == Candidates(Split(Upper(message)))[0])
  {
    match FirstCompany(Split(Lower(message)), CompanyTickers)
    case Some(t) => Some(t)
    case None =>
      var candidates := Candidates(Split(Upper(message)));
      if candidates == [] then None else Some(candidates[0])
  }

  /** `split()` of a text without whitespace is that one word. */
  lemma {:induction false} SplitOneWord(w: string, acc: string)
    requires acc + w != "" && forall k :: 0 <= k < |w| ==> !IsSpace(w[k])
    ensures SplitFrom(w, acc) == [acc + w]
    decreases |w|
  {
    if w != [] {
      SplitOneWord(w[1..], acc + [w[0]]);
      assert acc + [w[0]] + w[1..] == acc + w;
    } else {
      assert acc + w == acc;
    }
  }

  /** The message "AAPL?" is one word that names no company. */
  lemma PunctuatedMessage()
    ensures Split(Upper("AAPL?")) == ["AAPL?"]
    ensures FirstCompany(Split(Lower("AAPL?")), CompanyTickers) == None
  {
    var m, lower := "AAPL?", "aapl?";
    CaseOfAapl();
    OneWord(m);
    OneWord(lower);
    StripAapl();
    AaplIsNoName();
    FirstCompanyOne(lower, CompanyTickers);
  }

  /** "AAPL?" is already upper case, and lower-cases to "aapl?". */
  lemma CaseOfAapl()
    ensures Upper("AAPL?") == "AAPL?" && Lower("AAPL?") == "aapl?"
  {
    var m, lower := "AAPL?", "aapl?";
    forall i | 0 <= i < |m| ensures UpperChar(m[i]) == m[i] && LowerChar(m[i]) == lower[i] {
      assert !IsLowerLetter(m[i]);
      if i < 4 {
        assert IsUpperLetter(m[i]);
      }
    }
  }

  /** A text of one word without whitespace splits into that word. */
  lemma OneWord(w: string)
    requires w != "" && forall k :: 0 <= k < |w| ==> !IsSpace(w[k])
    ensures Split(w) == [w]
  {
    SplitOneWord(w, "");
    assert "" + w == w;
  }

  /** Stripping the question mark leaves "aapl". */
  lemma StripAapl()
    ensures Strip("aapl?", Punctuation) == "aapl"
  {
    var w := "aapl?";
    var front := w[..4];
    assert w[0] !in Punctuation;
    assert StripLeft(w, Punctuation) == w;
    assert w[4] in Punctuation;
    assert StripRight(w, Punctuation) == StripRight(front, Punctuation);
    assert front[3] !in Punctuation;
    assert StripRight(front, Punctuation) == front;
    assert front == "aapl";
  }

  /** A single word finds a company exactly when it names one. */
  lemma FirstCompanyOne(w: string, names: map<string, string>)
    requires Strip(w, Punctuation) !in names
    ensures FirstCompany([w], names) == None
  {
    assert [w][1..] == [];
  }

  lemma AaplIsNoName()
    ensures "aapl" !in CompanyTickers
  {
  }

  /** Which tool the router calls. */
  datatype Choice = SwotAnalysis | MaAnalysis | Ratios | Summary

  /** Keyword tests in a strict order: SWOT, then M&A, then ratios, else the
      summary. */
  function SelectTool(lower: string): (c: Choice)
    ensures c == SwotAnalysis <==> AnyIn(SwotWords, lower)
    ensures c == MaAnalysis <==> !AnyIn(SwotWords, lower) && AnyIn(MaWords, lower)
    ensures c == Ratios <==> !AnyIn(SwotWords, lower) && !AnyIn(MaWords, lower) && AnyIn(RatioWords, lower)
    ensures c == Summary <==> !AnyIn(SwotWords, lower) && !AnyIn(MaWords, lower) && !AnyIn(RatioWords, lower)
  {
    if AnyIn(SwotWords, lower) then SwotAnalysis
    else if AnyIn(MaWords, lower) then MaAnalysis
    else if AnyIn(RatioWords, lower) then Ratios
    else Summary
  }

  /** What the quote service answers for a ticker: the quote-summary
      document and the news list (the fetch is outside the model). */
  datatype Quotes = Quotes(data: string -> Value, news: string -> seq<Value>)

  function Banner(ticker: string, tool: string): string {
    "\U{1F916} **Agent Decision:** Analyzing " + ticker + "...\n\n"
    + ("**Tool Selected:** " + tool + "\n\n") + (Swot.Rule() + "\n")
  }

  /** The name the banner gives the chosen tool. */
  function ToolName(c: Choice): string {
    match c
    case SwotAnalysis => "SWOT Analysis"
    case MaAnalysis => "M&A Analyzer"
    case Ratios => "Financial Ratios"
    case Summary => "Financial Metrics"
  }

  /** The chosen tool's report on `ticker`. */
  function Run(c: Choice, ticker: string, q: Quotes, r: Render): string {
    var data := q.data(Upper(ticker));
    match c
    case SwotAnalysis => CleanApp.SwotCall(ticker, data, r)
    case MaAnalysis => CleanApp.MaCall(ticker, data, q.news(Upper(ticker)), r)
    case Ratios => CleanApp.MetricsCall(ticker, "ratios", data, r)
    case Summary => CleanApp.MetricsCall(ticker, "summary", data, r)
  }

  /** The answer once the ticker is settled: the help text without one,
      and otherwise the banner naming the ticker and the tool, followed by
      the tool's report. */
  function Answer(found: Option<string>, message: string, q: Quotes, r: Render): string {
    match found
    case None => Help
    case Some(t) =>
      var c := SelectTool(Lower(message));
      Banner(t, ToolName(c)) + Run(c, t, q, r)
  }

  /** The router's answer to `message` as written. */
  function Reply(message: string, q: Quotes, r: Render): (answer: string)
    ensures Resolve(message).None? ==> answer == Help
    ensures Resolve(message).Some? ==>
      var t := Resolve(message).value;
      var c := SelectTool(Lower(message));
      answer == Banner(t, ToolName(c)) + Run(c, t, q, r)
  {
    Answer(Resolve(message), message, q, r)
  }

  /** The router's answer with the corrected candidate filter. */
  function ReplyFixed(message: string, q: Quotes, r: Render): (answer: string)
    ensures ResolveFixed(message).None? ==> answer == Help
    ensures ResolveFixed(message).Some? ==>
      var t := ResolveFixed(message).value;
      var c := SelectTool(Lower(message));
      answer == Banner(t, ToolName(c)) + Run(c, t, q, r)
  {
    Answer(ResolveFixed(message), message, q, r)
  }

  /** Every tool answer opens with the banner's robot, so it is never the
      help text. */
  lemma AnswerNotHelp(t: string, message: string, q: Quotes, r: Render)
    ensures Answer(Some(t), message, q, r) != Help
  {
    var c := SelectTool(Lower(message));
    var b := Banner(t, ToolName(c));
    assert b[0] == '\U{1F916}';
    assert (b + Run(c, t, q, r))[0] == b[0];
    assert HelpHead[0] == 'I';
    PrefixFirst(HelpHead, Help[|HelpHead|..]);
    assert Help == HelpHead + Help[|HelpHead|..];
  }

  /** On "AAPL?" the router as written answers with the help text. */
  lemma PunctuatedTickerHelp(q: Quotes, r: Render)
    ensures Resolve("AAPL?") == None && Reply("AAPL?", q, r) == Help
  {
    PunctuatedMessage();
    PunctuatedTickerDropped();
  }

  /** On "AAPL?" the corrected router analyzes AAPL. */
  lemma PunctuatedTickerAnalyzed(q: Quotes, r: Render)
    ensures ResolveFixed("AAPL?") == Some("AAPL") && ReplyFixed("AAPL?", q, r) != Help
  {
    PunctuatedMessage();
    PunctuatedTickerFound();
    AnswerNotHelp("AAPL", "AAPL?", q, r);
  }

  /** Runs the chosen tool. */
  method RunTool(c: Choice, ticker: string, q: Quotes, r: Render) returns (report: string)
    ensures report == Run(c, ticker, q, r)
  {
    var data := q.data(Upper(ticker));
    match c
    case SwotAnalysis =>
      report := CleanApp.SwotTool(ticker, data, r);
    case MaAnalysis =>
      report := CleanApp.MaTool(ticker, data, q.news(Upper(ticker)), r);
    case Ratios =>
      report := CleanApp.MetricsCall(ticker, "ratios", data, r);
    case Summary =>
      report := CleanApp.MetricsCall(ticker, "summary", data, r);
  }

  /** `smart_agent(user_message)`. */
  method Route(message: string, q: Quotes, r: Render) returns (response: string)
    ensures response == Reply(message, q, r)
  {
    var company := FindCompany(message);
    var ticker: string;
    if company.Some? {
      ticker := company.value;
    } else {
      var candidates := CandidatesAsWritten(Split(Upper(message)));
      if candidates == [] {
        return Help;
      }
      ticker := candidates[0];
    }
    var choice := SelectTool(Lower(message));
    response := Banner(ticker, ToolName(choice));
    var report := RunTool(choice, ticker, q, r);
    response := response + report;
  }

  // ---------------------------------------------------------------------
  // The "Analyze" button of the same app (`analyze_company`)

  const EnterTicker: string := "Please enter a stock ticker (e.g., AAPL, MSFT)"
  const SelectType: string := "Please select an analysis type"

  /** `analyze_company(ticker, analysis_type)`: the ticker guard, then the
      exact analysis-type names pick the summary, M&A or SWOT report. */
  function AnalyzeCompany(ticker: string, analysisType: string, q: Quotes, r: Render): string {
    if ticker == "" then EnterTicker
    else
      var t := Upper(ticker);
      if analysisType == "Financial Metrics" then Run(Summary, t, q, r)
      else if analysisType == "M&A Analysis" then Run(MaAnalysis, t, q, r)
      else if analysisType == "SWOT Analysis" then Run(SwotAnalysis, t, q, r)
      else SelectType
  }

  /** An empty ticker gets the prompt; otherwise a type that is none of the
      three exact names gets the select prompt, and each name runs its tool
      on the upper-cased ticker. */
  lemma AnalyzeGuards(ticker: string, analysisType: string, q: Quotes, r: Render)
    ensures ticker == "" ==> AnalyzeCompany(ticker, analysisType, q, r) == EnterTicker
    ensures ticker != "" && analysisType !in {"Financial Metrics", "M&A Analysis", "SWOT Analysis"} ==>
      AnalyzeCompany(ticker, analysisType, q, r) == SelectType
    ensures ticker != "" && analysisType == "Financial Metrics" ==>
      AnalyzeCompany(ticker, analysisType, q, r) == CleanApp.MetricsCall(Upper(ticker), "summary", q.data(Upper(ticker)), r)
  {
    UpperIdempotent(ticker);
  }

  /** The answer does not depend on the case the ticker was typed in. */
  lemma AnalyzeIgnoresCase(ticker: string, analysisType: string, q: Quotes, r: Render)
    ensures AnalyzeCompany(Upper(ticker), analysisType, q, r) == AnalyzeCompany(ticker, analysisType, q, r)
  {
    UpperIdempotent(ticker);
    assert |Upper(ticker)| == |ticker|;
  }
}
