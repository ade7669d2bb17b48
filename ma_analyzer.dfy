/** The agent's M&A tool (`MATool`): the company record it builds from the
    quote service's `info`, the scan of the ten latest news items for deal
    keywords in the title or the summary, the trend summary, and the report
    that puts them together. */
module MaAnalyzer {
  import opened Py
  import opened Strings

  const Keywords: seq<string> :=
    ["merger", "acquisition", "acquire", "bought", "purchase", "takeover", "deal", "buyout",
     "consolidation", "m&a"]
  const Window: nat := 10         // how many of the latest news items are scanned
  const SummaryLimit: nat := 300  // characters of a summary kept with an article
  const TrendShown: nat := 5      // articles quoted in the trend summary
  const TrendLimit: nat := 200    // characters of a summary quoted there

  const NA: Value := Text("N/A")

  // ---------------------------------------------------------------------
  // _get_peer_companies

  /** The one dictionary `_get_peer_companies` returns for the company. */
  datatype Company = Company(ticker: string, name: Value, sector: Value, industry: Value, marketCap: Value)

  /** `[{"ticker": ..., ...}]`, or `[{"error": ...}]` when `info` could not be
      fetched. The list always has exactly one element, so it is modelled
      by that element. */
  datatype PeerLookup = Found(company: Company) | PeerFailed(message: string)

  function PeerCompanies(ticker: string, info: Result<seq<Entry>>, r: Render): (p: PeerLookup)
    ensures p.PeerFailed? <==> info.Raise?
    ensures p.Found? ==> p.company.ticker == Upper(ticker)
    ensures p.Found? ==>
      p.company.sector == Get(info.value, "sector", Text("")) &&
      p.company.industry == Get(info.value, "industry", Text(""))
  {
    match info
    case Raise(e) => PeerFailed("Could not fetch peer data: " + r.error(e))
    case Ok(es) =>
      Found(Company(Upper(ticker), Get(es, "longName", NA), Get(es, "sector", Text("")),
                    Get(es, "industry", Text("")), Get(es, "marketCap", NA)))
  }

  // ---------------------------------------------------------------------
  // _search_ma_news

  /** A news item as `_search_ma_news` keeps it. */
  datatype Article = Article(title: string, publisher: Value, link: Value, published: string, summary: string)

  /** The list `_search_ma_news` returns: the kept articles, or the
      one-element list holding an error dictionary. */
  datatype MaNews = Articles(items: seq<Article>) | NewsFailed(message: string)

  /** `any(keyword in title or keyword in summary for keyword in keywords)`.
      The scan below is stated for any keyword list and used with
      `Keywords`. */
  predicate MentionsDeal(keywords: seq<string>, title: string, summary: string) {
    exists i :: 0 <= i < |keywords| && (Contains(title, keywords[i]) || Contains(summary, keywords[i]))
  }

  /** `item.get('title', '').lower()` and `item.get('summary', '').lower()`
      both succeed. */
  predicate Readable(item: Value) {
    item.Dict? && Get(item.entries, "title", Text("")).Text? && Get(item.entries, "summary", Text("")).Text?
  }

  /** The item is kept: its lower-cased title or summary holds a keyword. */
  predicate IsDeal(keywords: seq<string>, item: Value) {
    Readable(item) &&
    MentionsDeal(keywords, Lower(Get(item.entries, "title", Text("")).s),
                 Lower(Get(item.entries, "summary", Text("")).s))
  }

  function DealTest(keywords: seq<string>): Value -> bool {
    (item: Value) => IsDeal(keywords, item)
  }

  /** `datetime.fromtimestamp(item.get('providerPublishTime', 0))` succeeds. */
  predicate Dated(item: Value) {
    item.Dict? && IsNumber(Get(item.entries, "providerPublishTime", Num(0.0)))
  }

  /** The article kept for a deal item: title and summary default to "N/A"
      when absent, and the summary is cut to 300 characters. */
  function ArticleFor(item: Value, r: Render): (a: Article)
    requires Readable(item) && Dated(item)
    ensures |a.summary| <= SummaryLimit
  {
    var es := item.entries;
    var title, summary := Get(es, "title", Text("")), Get(es, "summary", Text(""));
    Article(if HasKey(es, "title") then title.s else "N/A",
            Get(es, "publisher", NA),
            Get(es, "link", NA),
            r.date(AsReal(Get(es, "providerPublishTime", Num(0.0)))),
            Take(if HasKey(es, "summary") then summary.s else "N/A", SummaryLimit))
  }

  /** The articles for a list of dated deal items, in order. */
  function ArticlesFor(deals: seq<Value>, r: Render): seq<Article>
    requires forall i :: 0 <= i < |deals| ==> Readable(deals[i]) && Dated(deals[i])
  {
    seq(|deals|, i requires 0 <= i < |deals| => ArticleFor(deals[i], r))
  }

  /** The deal items of `items`, in order. */
  function Deals(keywords: seq<string>, items: seq<Value>): seq<Value> {
    Filter(items, DealTest(keywords))
  }

  /** One pass of the loop body, with its exceptions in the order the body
      raises them. */
  function Step(keywords: seq<string>, item: Value, r: Render): (s: Result<seq<Article>>)
    ensures s.Ok? <==> Readable(item) && (IsDeal(keywords, item) ==> Dated(item))
    ensures s.Ok? ==> s.value == (if IsDeal(keywords, item) then [ArticleFor(item, r)] else [])
  {
    if !item.Dict? then Raise(NoAttribute(item, "get"))
    else
      var es := item.entries;
      var title := Get(es, "title", Text(""));
      var summary := Get(es, "summary", Text(""));
      var pub := Get(es, "providerPublishTime", Num(0.0));
      if !title.Text? then Raise(NoAttribute(title, "lower"))
      else if !summary.Text? then Raise(NoAttribute(summary, "lower"))
      else if !MentionsDeal(keywords, Lower(title.s), Lower(summary.s)) then Ok([])
      else if !IsNumber(pub) then Raise(BadTimestamp(pub))
      else Ok([ArticleFor(item, r)])
  }

  function StepFn(keywords: seq<string>, r: Render): Value -> Result<seq<Article>> {
    (item: Value) => Step(keywords, item, r)
  }

  /** What a loop that appends `step(item)` for each item builds, or the
      first exception raised. */
  function Scan<T, U>(items: seq<T>, step: T -> Result<seq<U>>): Result<seq<U>>
    decreases |items|
  {
    if items == [] then Ok([])
    else
      var before :- Scan(items[..|items| - 1], step);
      var last :- step(items[|items| - 1]);
      Ok(before + last)
  }

  lemma {:induction false} ScanOk<T, U>(items: seq<T>, step: T -> Result<seq<U>>)
    ensures Scan(items, step).Ok? <==> forall i :: 0 <= i < |items| ==> step(items[i]).Ok?
    decreases |items|
  {
    if items != [] {
      var init := items[..|items| - 1];
      ScanOk(init, step);
      assert forall i :: 0 <= i < |init| ==> init[i] == items[i];
    }
  }

  /** A scan whose steps yield `[f(x)]` for the kept items and nothing for
      the others yields `f` of the kept items, in order. */
  lemma {:induction false} ScanFilters<T, U>(items: seq<T>, step: T -> Result<seq<U>>, keep: T -> bool, f: T --> U)
    requires forall i :: 0 <= i < |items| ==> step(items[i]).Ok?
    requires forall i :: 0 <= i < |items| && keep(items[i]) ==>
      f.requires(items[i]) && step(items[i]).value == [f(items[i])]
    requires forall i :: 0 <= i < |items| && !keep(items[i]) ==> step(items[i]).value == []
    ensures Scan(items, step).Ok? && |Scan(items, step).value| == |Filter(items, keep)|
    ensures forall i :: 0 <= i < |Filter(items, keep)| ==>
      f.requires(Filter(items, keep)[i]) && Scan(items, step).value[i] == f(Filter(items, keep)[i])
    decreases |items|
  {
    if items != [] {
      var init, last := items[..|items| - 1], items[|items| - 1];
      assert forall i :: 0 <= i < |init| ==> init[i] == items[i];
      ScanFilters(init, step, keep, f);
      var before := Filter(init, keep);
      var done := Scan(init, step).value;
      assert step(last).Ok?;
      assert Scan(items, step) == Ok(done + step(last).value);
      if keep(last) {
        assert Filter(items, keep) == before + [last];
        assert f.requires(last);
      } else {
        assert Filter(items, keep) == before;
      }
    }
  }

  /** The scan succeeds exactly when every title and summary can be
      lower-cased and every deal item has a numeric publish time. */
  lemma ScanIsFilter(keywords: seq<string>, items: seq<Value>, r: Render)
    ensures Scan(items, StepFn(keywords, r)).Ok? <==>
      forall i :: 0 <= i < |items| ==> Readable(items[i]) && (IsDeal(keywords, items[i]) ==> Dated(items[i]))
  {
    ScanOk(items, StepFn(keywords, r));
  }

  function ArticleFn(r: Render): Value --> Article {
    (item: Value) requires Readable(item) && Dated(item) => ArticleFor(item, r)
  }

  /** Each step that succeeds yields the article of a deal item and nothing
      for any other item. */
  lemma StepsFit(keywords: seq<string>, items: seq<Value>, r: Render)
    requires forall i :: 0 <= i < |items| ==> StepFn(keywords, r)(items[i]).Ok?
    ensures forall i :: 0 <= i < |items| && DealTest(keywords)(items[i]) ==>
      ArticleFn(r).requires(items[i]) && StepFn(keywords, r)(items[i]).value == [ArticleFn(r)(items[i])]
    ensures forall i :: 0 <= i < |items| && !DealTest(keywords)(items[i]) ==>
      StepFn(keywords, r)(items[i]).value == []
    ensures forall x :: x in items ==> Readable(x) && (IsDeal(keywords, x) ==> Dated(x))
  {
  }

  /** A scan that succeeds yields one article per deal item, in order. */
  lemma ScanYieldsDeals(keywords: seq<string>, items: seq<Value>, r: Render)
    requires Scan(items, StepFn(keywords, r)).Ok?
    ensures var deals := Deals(keywords, items);
      (forall i :: 0 <= i < |deals| ==> Readable(deals[i]) && Dated(deals[i])) &&
      Scan(items, StepFn(keywords, r)).value == ArticlesFor(deals, r)
  {
    var step := StepFn(keywords, r);
    ScanOk(items, step);
    StepsFit(keywords, items, r);
    ScanFilters(items, step, DealTest(keywords), ArticleFn(r));
    var deals := Deals(keywords, items);
    FilterIsFilter(items, DealTest(keywords));
    assert forall i :: 0 <= i < |deals| ==> deals[i] in items && IsDeal(keywords, deals[i]);
    assert forall i :: 0 <= i < |deals| ==> Readable(deals[i]) && Dated(deals[i]);
    ArticlesOfDeals(deals, Scan(items, step).value, r);
  }

  lemma ArticlesOfDeals(deals: seq<Value>, articles: seq<Article>, r: Render)
    requires forall i :: 0 <= i < |deals| ==> Readable(deals[i]) && Dated(deals[i])
    requires |articles| == |deals|
    requires forall i :: 0 <= i < |deals| ==> articles[i] == ArticleFn(r)(deals[i])
    ensures articles == ArticlesFor(deals, r)
  {
    var expected := ArticlesFor(deals, r);
    assert forall i :: 0 <= i < |deals| ==> expected[i] == ArticleFor(deals[i], r) == articles[i];
  }

  /** Once the loop has raised, the later items change nothing. */
  lemma {:induction false} ScanStops<T, U>(items: seq<T>, step: T -> Result<seq<U>>, k: nat)
    requires k <= |items| && Scan(items[..k], step).Raise?
    ensures Scan(items, step) == Scan(items[..k], step)
    decreases |items| - k
  {
    if k < |items| {
      assert items[..k + 1][..k] == items[..k];
      ScanStops(items, step, k + 1);
    } else {
      assert items[..k] == items;
    }
  }

  function NewsError(e: PyError, r: Render): MaNews {
    NewsFailed("Could not fetch M&A news: " + r.error(e))
  }

  /** `_search_ma_news` over the fetched news list. */
  function SearchMaNews(news: Result<seq<Value>>, r: Render): MaNews {
    match news
    case Raise(e) => NewsError(e, r)
    case Ok(items) =>
      match Scan(Take(items, Window), StepFn(Keywords, r))
      case Ok(articles) => Articles(articles)
      case Raise(e) => NewsError(e, r)
  }

  /** At most ten articles are kept, each summary at most 300 characters,
      one for each item among the ten latest that mentions a deal. */
  lemma NewsShape(news: Result<seq<Value>>, r: Render)
    ensures SearchMaNews(news, r).Articles? ==>
      var a := SearchMaNews(news, r).items;
      |a| <= Window && forall i :: 0 <= i < |a| ==> |a[i].summary| <= SummaryLimit
    ensures SearchMaNews(news, r).Articles? ==>
      |SearchMaNews(news, r).items| == |Deals(Keywords, Take(news.value, Window))|
  {
    if SearchMaNews(news, r).Articles? {
      var window := Take(news.value, Window);
      ScanYieldsDeals(Keywords, window, r);
      FilterIsFilter(window, DealTest(Keywords));
      SubsequenceShorter(Deals(Keywords, window), window);
    }
  }

  /** The `for item in news[:10]` loop, over the window and the keyword
      list. */
  method ScanNews(window: seq<Value>, keywords: seq<string>, r: Render) returns (res: Result<seq<Article>>)
    ensures res == Scan(window, StepFn(keywords, r))
  {
    var items := [];
    for k := 0 to |window|
      invariant Scan(window[..k], StepFn(keywords, r)) == Ok(items)
    {
      assert window[..k + 1][..k] == window[..k];
      var item := window[k];
      if !item.Dict? {
        ScanStops(window, StepFn(keywords, r), k + 1);
        return Raise(NoAttribute(item, "get"));
      }
      var es := item.entries;
      var title := Get(es, "title", Text(""));
      if !title.Text? {
        ScanStops(window, StepFn(keywords, r), k + 1);
        return Raise(NoAttribute(title, "lower"));
      }
      var summary := Get(es, "summary", Text(""));
      if !summary.Text? {
        ScanStops(window, StepFn(keywords, r), k + 1);
        return Raise(NoAttribute(summary, "lower"));
      }
      if MentionsDeal(keywords, Lower(title.s), Lower(summary.s)) {
        var pub := Get(es, "providerPublishTime", Num(0.0));
        if !IsNumber(pub) {
          ScanStops(window, StepFn(keywords, r), k + 1);
          return Raise(BadTimestamp(pub));
        }
        assert Step(keywords, item, r) == Ok([ArticleFor(item, r)]);
        items := items + [ArticleFor(item, r)];
      } else {
        assert Step(keywords, item, r) == Ok([]);
        assert items + [] == items;
      }
    }
    assert window[..|window|] == window;
    return Ok(items);
  }

  /** `_search_ma_news`: fetch, scan the ten latest items, or report the
      failure. */
  method SearchMaNewsMethod(news: Result<seq<Value>>, r: Render) returns (res: MaNews)
    ensures res == SearchMaNews(news, r)
  {
    if news.Raise? {
      return NewsError(news.error, r);
    }
    var scanned := ScanNews(Take(news.value, Window), Keywords, r);
    if scanned.Raise? {
      return NewsError(scanned.error, r);
    }
    return Articles(scanned.value);
  }

  // ---------------------------------------------------------------------
  // _analyze_ma_trends

  /** The three `context +=` lines for the `i`-th quoted article. */
  function TrendEntry(i: nat, a: Article): string {
    "\n" + NatStr(i) + ". " + a.title
    + ("\n   Date: " + a.published)
    + ("\n   Summary: " + Take(a.summary, TrendLimit) + "...\n")
  }

  function TrendEntries(articles: seq<Article>): (t: seq<string>)
    ensures |t| == |articles|
    ensures forall i :: 0 <= i < |articles| ==> t[i] == TrendEntry(i + 1, articles[i])
  {
    seq(|articles|, i requires 0 <= i < |articles| => TrendEntry(i + 1, articles[i]))
  }

  /** The company lines and the article count that open the context. */
  function ContextHead(c: Company, count: nat, r: Render): string {
    "\nCompany: " + Str(c.name, r) + " (" + c.ticker + ")\nSector: " + Str(c.sector, r)
    + "\nIndustry: " + Str(c.industry, r) + "\n\nRecent M&A-Related News (" + NatStr(count) + " items):\n"
  }

  /** `_analyze_ma_trends`: the context quotes the first five articles, but
      counts all of them; with a language model configured the placeholder
      line comes first. */
  function Trends(c: Company, articles: seq<Article>, llm: bool, r: Render): string {
    var context := ContextHead(c, |articles|, r) + Concat(TrendEntries(Take(articles, TrendShown)));
    if llm then "[LLM Analysis would go here]\n\n" + context else context
  }

  /** The trend summary quotes `min(5, n)` articles, the `i`-th under number
      `i + 1`, each with at most the first 200 characters of its summary. */
  lemma TrendsQuoteFirstFive(articles: seq<Article>)
    ensures var q := TrendEntries(Take(articles, TrendShown));
      |q| == (if |articles| < TrendShown then |articles| else TrendShown) &&
      forall i :: 0 <= i < |q| ==> q[i] == TrendEntry(i + 1, articles[i]) && |Take(articles[i].summary, TrendLimit)| <= TrendLimit
  {
  }

  method AnalyzeMaTrends(c: Company, articles: seq<Article>, llm: bool, r: Render) returns (out: string)
    ensures out == Trends(c, articles, llm, r)
  {
    var context := ContextHead(c, |articles|, r);
    context := AppendEach(context, TrendEntries(Take(articles, TrendShown)));
    if llm {
      return "[LLM Analysis would go here]\n\n" + context;
    }
    return context;
  }

  // ---------------------------------------------------------------------
  // __call__

  /** What the quote service returns for a ticker: `info` and the news list,
      each of which may fail to arrive. */
  datatype Quote = Quote(info: Result<seq<Entry>>, news: Result<seq<Value>>)

  function Rule(): string {
    Repeat('=', 60)
  }

  function Header(ticker: string, c: Company, r: Render): string {
    "M&A Activity Analysis for " + Str(c.name, r) + " (" + ticker + ")\n"
    + (Rule() + "\n\n")
    + "Company Information:\n"
    + ("  Sector: " + Str(c.sector, r) + "\n")
    + ("  Industry: " + Str(c.industry, r) + "\n")
    + ("  Market Cap: " + Str(c.marketCap, r) + "\n\n")
  }

  /** The five `report +=` lines for the `i`-th article. */
  function ArticleEntry(i: nat, a: Article, r: Render): string {
    NatStr(i) + ". " + a.title + "\n"
    + ("   Published: " + a.published + "\n")
    + ("   Source: " + Str(a.publisher, r) + "\n")
    + ("   Summary: " + a.summary + "\n")
    + ("   Link: " + Str(a.link, r) + "\n\n")
  }

  function ArticleEntries(articles: seq<Article>, r: Render): (t: seq<string>)
    ensures |t| == |articles|
    ensures forall i :: 0 <= i < |articles| ==> t[i] == ArticleEntry(i + 1, articles[i], r)
  {
    seq(|articles|, i requires 0 <= i < |articles| => ArticleEntry(i + 1, articles[i], r))
  }

  function NewsHead(count: nat): string {
    "Recent M&A-Related News (" + NatStr(count) + " items found):\n\n"
  }

  function TrendHead(): string {
    "\n" + Rule() + "\n" + "M&A TREND ANALYSIS\n" + (Rule() + "\n\n")
  }

  const NoNewsLead: string := "No" + " recent M&A-related news found for this company.\n"
  const NoNewsReasons: string :=
    "\nThis could indicate:\n"
    + "  - The company is not actively pursuing M&A\n"
    + "  - M&A activities are confidential/pre-announcement\n"
    + "  - The industry is experiencing low M&A activity\n"
  const NoNews: string := NoNewsLead + NoNewsReasons

  function PeerError(ticker: string): string {
    "Error: " + "Could not analyze M&A activity for " + ticker
  }

  /** Every article listed in full, then the trend summary. */
  function NewsPart(c: Company, articles: seq<Article>, llm: bool, r: Render): string {
    NewsHead(|articles|) + Concat(ArticleEntries(articles, r)) + TrendHead() + Trends(c, articles, llm, r)
  }

  /** `MATool.__call__`. No statement under its outer `try` can raise once
      the two helpers have caught their own failures, so its handler is not
      modelled. */
  function MaCall(ticker: string, q: Quote, llm: bool, r: Render): string {
    var t := Upper(ticker);
    match PeerCompanies(t, q.info, r)
    case PeerFailed(_) => PeerError(t)
    case Found(c) => Report(t, c, SearchMaNews(q.news, r), llm, r)
  }

  /** The report for a company that was found: the heading, then either
      the articles and the trend summary or the no-news text. */
  function Report(ticker: string, c: Company, news: MaNews, llm: bool, r: Render): string {
    if news.Articles? && news.items != [] then Header(ticker, c, r) + NewsPart(c, news.items, llm, r)
    else Header(ticker, c, r) + NoNews
  }

  lemma HeaderFirst(ticker: string, c: Company, r: Render)
    ensures |Header(ticker, c, r)| > 0 && Header(ticker, c, r)[0] == 'M'
  {
    var lead := "M&A Activity Analysis for ";
    assert lead[0] == 'M';
    var x := lead + Str(c.name, r) + " (" + ticker + ")\n";
    assert x == lead + (Str(c.name, r) + " (" + ticker + ")\n");
    var y := Rule() + "\n\n";
    var z := "Company Information:\n";
    var u := "  Sector: " + Str(c.sector, r) + "\n";
    var v := "  Industry: " + Str(c.industry, r) + "\n";
    var w := "  Market Cap: " + Str(c.marketCap, r) + "\n\n";
    PrefixFirst(x, y);
    PrefixFirst(x + y, z);
    PrefixFirst(x + y + z, u);
    PrefixFirst(x + y + z + u, v);
    PrefixFirst(x + y + z + u + v, w);
  }

  lemma NewsPartFirst(c: Company, articles: seq<Article>, llm: bool, r: Render)
    ensures |NewsPart(c, articles, llm, r)| > 0 && NewsPart(c, articles, llm, r)[0] == 'R'
  {
    var lead := "Recent M&A-Related News (";
    var h := NewsHead(|articles|);
    assert h == lead + (NatStr(|articles|) + " items found):\n\n");
    var x, y, z := Concat(ArticleEntries(articles, r)), TrendHead(), Trends(c, articles, llm, r);
    PrefixFirst(h, x);
    PrefixFirst(h + x, y);
    PrefixFirst(h + x + y, z);
  }

  lemma ReportFirst(ticker: string, c: Company, news: MaNews, llm: bool, r: Render)
    ensures |Report(ticker, c, news, llm, r)| > 0 && Report(ticker, c, news, llm, r)[0] == 'M'
  {
    var h := Header(ticker, c, r);
    HeaderFirst(ticker, c, r);
    var tail := if news.Articles? && news.items != [] then NewsPart(c, news.items, llm, r) else NoNews;
    assert Report(ticker, c, news, llm, r) == h + tail;
    PrefixFirst(h, tail);
  }

  /** The report is an error line exactly when `info` could not be
      fetched. */
  lemma MaCallError(ticker: string, q: Quote, llm: bool, r: Render)
    ensures StartsWith(MaCall(ticker, q, llm, r), "Error: ") <==> q.info.Raise?
  {
    var t := Upper(ticker);
    var out := MaCall(ticker, q, llm, r);
    var lead := "Error: ";
    if q.info.Ok? {
      var c := PeerCompanies(t, q.info, r).company;
      ReportFirst(t, c, SearchMaNews(q.news, r), llm, r);
      assert lead[0] == 'E';
      FirstCharDiffers(out, lead);
    } else {
      var rest := "Could not analyze M&A activity for ";
      assert out == PeerError(t) == lead + rest + t;
      StartsWithJoin(lead, rest);
      StartsWithExtend(lead + rest, lead, t);
    }
  }

  /** The report ends with the no-news text exactly when the news could not
      be read or none of the ten latest items mentions a deal. */
  lemma ReportNoNews(ticker: string, c: Company, news: MaNews, llm: bool, r: Render)
    ensures Report(ticker, c, news, llm, r) == Header(ticker, c, r) + NoNews <==>
      news.NewsFailed? || news.items == []
  {
    if news.Articles? && news.items != [] {
      NewsPartFirst(c, news.items, llm, r);
      NoNewsFirst();
      JoinDiffers(Header(ticker, c, r), NewsPart(c, news.items, llm, r), NoNews);
    }
  }

  lemma NoNewsFirst()
    ensures |NoNews| > 0 && NoNews[0] == 'N'
  {
    PrefixFirst("No", " recent M&A-related news found for this company.\n");
    PrefixFirst(NoNewsLead, NoNewsReasons);
  }

  /** Upper-casing the ticker before calling changes nothing. */
  lemma MaCallUpperCases(ticker: string, q: Quote, llm: bool, r: Render)
    ensures MaCall(ticker, q, llm, r) == MaCall(Upper(ticker), q, llm, r)
  {
    UpperIdempotent(ticker);
  }

  /** `__call__` with its `report +=` steps. */
  method MaTool(ticker: string, q: Quote, llm: bool, r: Render) returns (report: string)
    ensures report == MaCall(ticker, q, llm, r)
  {
    var t := Upper(ticker);
    var peers := PeerCompanies(t, q.info, r);
    if peers.PeerFailed? {
      return PeerError(t);
    }
    var c := peers.company;
    var maNews := SearchMaNewsMethod(q.news, r);
    report := Header(t, c, r);
    if maNews.Articles? && maNews.items != [] {
      var h := report;
      report := report + NewsHead(|maNews.items|);
      report := AppendEach(report, ArticleEntries(maNews.items, r));
      report := report + TrendHead();
      var trends := AnalyzeMaTrends(c, maNews.items, llm, r);
      report := report + trends;
      var listed := Concat(ArticleEntries(maNews.items, r));
      AppendAssoc(h, NewsHead(|maNews.items|), listed);
      AppendAssoc(h, NewsHead(|maNews.items|) + listed, TrendHead());
      AppendAssoc(h, NewsHead(|maNews.items|) + listed + TrendHead(), trends);
    } else {
      report := report + NoNews;
    }
  }
}
