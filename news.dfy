/** The M&A news step that the three copies of the app tools share: keep the
    items among the first 15 whose lower-cased title holds an M&A keyword, in
    their original order, then list the first five of them. */
module News {
  import opened Py
  import opened Strings

  const Keywords: seq<string> :=
    ["merger", "acquisition", "acquire", "bought", "purchase", "takeover", "deal", "buyout", "m&a"]
  const Window: nat := 15   // how many of the latest news items are looked at
  const Shown: nat := 5     // how many kept items are listed

  /** `item.get('title', '').lower()`; a news item that is not a dictionary,
      or a title that is not a string, raises AttributeError. */
  function LoweredTitle(item: Value): Result<string> {
    if !item.Dict? then Raise(NoAttribute(item, "get"))
    else
      var title := Get(item.entries, "title", Text(""));
      if title.Text? then Ok(Lower(title.s)) else Raise(NoAttribute(title, "lower"))
  }

  /** The item is M&A news: its lower-cased title contains a keyword. */
  predicate IsMaNews(item: Value) {
    var t := LoweredTitle(item);
    t.Ok? && AnyIn(Keywords, t.value)
  }

  /** What the filter loop builds from `items`, or the exception raised by the
      first item whose title cannot be read. */
  function Kept(items: seq<Value>): Result<seq<Value>>
    decreases |items|
  {
    if items == [] then Ok([])
    else
      var kept :- Kept(items[..|items| - 1]);
      var title :- LoweredTitle(items[|items| - 1]);
      Ok(if AnyIn(Keywords, title) then kept + [items[|items| - 1]] else kept)
  }

  /** The loop raises exactly when some item's title cannot be read. */
  lemma KeptRaises(items: seq<Value>)
    ensures Kept(items).Ok? <==> forall i :: 0 <= i < |items| ==> LoweredTitle(items[i]).Ok?
  {
    forall i | 0 <= i < |items| && Kept(items).Ok? ensures LoweredTitle(items[i]).Ok? {
      KeptReadsAll(items, i);
    }
    if forall i :: 0 <= i < |items| ==> LoweredTitle(items[i]).Ok? {
      KeptReadable(items);
    }
  }

  /** A step of the loop that does not raise read the last title and
      follows a prefix that did not raise. */
  lemma KeptStep(items: seq<Value>)
    requires items != [] && Kept(items).Ok?
    ensures Kept(items[..|items| - 1]).Ok? && LoweredTitle(items[|items| - 1]).Ok?
  {
  }

  /** A loop that finishes has read every title. */
  lemma {:induction false} KeptReadsAll(items: seq<Value>, i: nat)
    requires i < |items| && Kept(items).Ok?
    ensures LoweredTitle(items[i]).Ok?
    decreases |items|
  {
    KeptStep(items);
    if i < |items| - 1 {
      var init := items[..|items| - 1];
      KeptReadsAll(init, i);
      assert items[i] == init[i];
    }
  }

  /** When every title can be read, the loop finishes. */
  lemma {:induction false} KeptReadable(items: seq<Value>)
    requires forall i :: 0 <= i < |items| ==> LoweredTitle(items[i]).Ok?
    ensures Kept(items).Ok?
    decreases |items|
  {
    if items != [] {
      var init := items[..|items| - 1];
      forall i | 0 <= i < |init| ensures LoweredTitle(init[i]).Ok? {
        assert items[i] == init[i];
      }
      KeptReadable(init);
    }
  }

  /** When it does not raise, the loop builds exactly the M&A items in their
      original order. */
  lemma {:induction false} KeptIsFilterOf(items: seq<Value>)
    ensures Kept(items).Ok? ==> Kept(items).value == Filter(items, IsMaNews)
    decreases |items|
  {
    if items != [] && Kept(items).Ok? {
      var init, last := items[..|items| - 1], items[|items| - 1];
      KeptIsFilterOf(init);
      assert Kept(init).Ok? && LoweredTitle(last).Ok?;
      assert IsMaNews(last) == AnyIn(Keywords, LoweredTitle(last).value);
    }
  }

  /** The filter keeps exactly the M&A items, in their original order, and
      raises only if some item's title cannot be read. */
  lemma KeptIsFilter(items: seq<Value>)
    ensures Kept(items).Ok? <==> forall i :: 0 <= i < |items| ==> LoweredTitle(items[i]).Ok?
    ensures Kept(items).Ok? ==> Kept(items).value == Filter(items, IsMaNews)
    ensures Kept(items).Ok? ==> Subsequence(Kept(items).value, items)
    ensures Kept(items).Ok? ==> forall x :: x in Kept(items).value <==> x in items && IsMaNews(x)
  {
    KeptRaises(items);
    KeptIsFilterOf(items);
    FilterIsFilter(items, IsMaNews);
  }

  /** Once an item's title cannot be read, the later items change nothing. */
  lemma {:induction false} KeptStops(items: seq<Value>, k: nat)
    requires k <= |items| && Kept(items[..k]).Raise?
    ensures Kept(items) == Kept(items[..k])
    decreases |items| - k
  {
    if k < |items| {
      assert items[..k + 1][..k] == items[..k];
      KeptStops(items, k + 1);
    } else {
      assert items[..k] == items;
    }
  }

  /** `for item in news[:15]: ... if any(keyword in title ...): ma_news.append(item)` */
  method FilterNews(news: seq<Value>) returns (r: Result<seq<Value>>)
    ensures r == Kept(Take(news, Window))
  {
    var window := Take(news, Window);
    var maNews := [];
    for k := 0 to |window|
      invariant Kept(window[..k]) == Ok(maNews)
    {
      assert window[..k + 1][..k] == window[..k];
      var item := window[k];
      if !item.Dict? {
        KeptStops(window, k + 1);
        return Raise(NoAttribute(item, "get"));
      }
      var title := Get(item.entries, "title", Text(""));
      if !title.Text? {
        KeptStops(window, k + 1);
        return Raise(NoAttribute(title, "lower"));
      }
      if AnyIn(Keywords, Lower(title.s)) {
        maNews := maNews + [item];
      }
    }
    assert window[..|window|] == window;
    return Ok(maNews);
  }

  /** The filter looks at no more than 15 items and keeps no more than it
      looked at. */
  lemma KeptBound(news: seq<Value>)
    ensures Kept(Take(news, Window)).Ok? ==> |Kept(Take(news, Window)).value| <= Window
  {
    KeptIsFilter(Take(news, Window));
    if Kept(Take(news, Window)).Ok? {
      SubsequenceShorter(Kept(Take(news, Window)).value, Take(news, Window));
    }
  }

  /** The lines for the `number`-th listed item. A truthy publish time that is
      not a number makes `datetime.fromtimestamp` raise TypeError. */
  function EntryText(number: nat, item: Value, r: Render): Result<string> {
    if !item.Dict? then Raise(NoAttribute(item, "get"))
    else
      var es := item.entries;
      var pub := Get(es, "providerPublishTime", Num(0.0));
      var date :- if !Truthy(pub) then Ok("")
                  else if IsNumber(pub) then Ok("   Date: " + r.date(AsReal(pub)) + "\n")
                  else Raise(BadTimestamp(pub));
      var title := NatStr(number) + ". " + Str(Get(es, "title", Text("N/A")), r) + "\n";
      var publisher := "   Publisher: " + Str(Get(es, "publisher", Text("N/A")), r) + "\n";
      var link := "   Link: " + Str(Get(es, "link", Text("N/A")), r) + "\n\n";
      Ok(title + publisher + date + link)
  }

  /** One text per item, `entry(i + 1, items[i])`, numbered from 1 in list
      order; the first item that cannot be listed stops the listing. */
  function Entries(items: seq<Value>, entry: (nat, Value) -> Result<string>): (res: Result<seq<string>>)
    ensures res.Ok? ==> |res.value| == |items|
    decreases |items|
  {
    if items == [] then Ok([])
    else
      var before :- Entries(items[..|items| - 1], entry);
      var last :- entry(|items|, items[|items| - 1]);
      Ok(before + [last])
  }

  /** The listing raises exactly when some item cannot be listed. */
  lemma {:induction false} EntriesOk(items: seq<Value>, entry: (nat, Value) -> Result<string>)
    ensures Entries(items, entry).Ok? <==> forall i :: 0 <= i < |items| ==> entry(i + 1, items[i]).Ok?
    decreases |items|
  {
    if items != [] {
      var init := items[..|items| - 1];
      EntriesOk(init, entry);
      assert forall i :: 0 <= i < |init| ==> init[i] == items[i];
    }
  }

  /** The `i`-th text is the `i`-th item's, under number `i + 1`. */
  lemma {:induction false} EntriesInOrder(items: seq<Value>, entry: (nat, Value) -> Result<string>)
    requires Entries(items, entry).Ok?
    ensures forall i :: 0 <= i < |items| ==>
      entry(i + 1, items[i]).Ok? && Entries(items, entry).value[i] == entry(i + 1, items[i]).value
    decreases |items|
  {
    if items != [] {
      var init := items[..|items| - 1];
      EntriesInOrder(init, entry);
      var before := Entries(init, entry).value;
      assert forall i :: 0 <= i < |init| ==> init[i] == items[i] && Entries(items, entry).value[i] == before[i];
    }
  }

  /** Once an item cannot be listed, the later items change nothing. */
  lemma {:induction false} EntriesStop(items: seq<Value>, entry: (nat, Value) -> Result<string>, k: nat)
    requires k <= |items| && Entries(items[..k], entry).Raise?
    ensures Entries(items, entry) == Entries(items[..k], entry)
    decreases |items| - k
  {
    if k < |items| {
      assert items[..k + 1][..k] == items[..k];
      EntriesStop(items, entry, k + 1);
    } else {
      assert items[..k] == items;
    }
  }

  /** Listing one more item appends its text, or stops at its exception. */
  lemma EntriesGrow(items: seq<Value>, entry: (nat, Value) -> Result<string>, k: nat)
    requires k < |items| && Entries(items[..k], entry).Ok?
    ensures entry(k + 1, items[k]).Raise? ==> Entries(items, entry) == entry(k + 1, items[k]).PropagateFailure()
    ensures entry(k + 1, items[k]).Ok? ==>
      Entries(items[..k + 1], entry).Ok? &&
      Concat(Entries(items[..k + 1], entry).value) ==
        Concat(Entries(items[..k], entry).value) + entry(k + 1, items[k]).value
  {
    var prefix := items[..k + 1];
    assert prefix[..k] == items[..k] && prefix[k] == items[k];
    if entry(k + 1, items[k]).Raise? {
      EntriesStop(items, entry, k + 1);
    } else {
      var before := Entries(items[..k], entry).value;
      var e := entry(k + 1, items[k]).value;
      assert (before + [e])[..|before|] == before;
    }
  }

  /** The listed form of the news items, numbered. */
  function Listed(r: Render): (nat, Value) -> Result<string> {
    (number: nat, item: Value) => EntryText(number, item, r)
  }

  /** The text the listing loop appends for `items`. */
  function Listing(items: seq<Value>, r: Render): Result<string> {
    var entries :- Entries(items, Listed(r));
    Ok(Concat(entries))
  }

  /** The news part of the report: a count of all kept items and the first
      five of them, or `noNews` when nothing was kept. */
  function NewsSection(maNews: seq<Value>, r: Render, noNews: string): Result<string> {
    if maNews == [] then Ok(noNews)
    else
      var listing :- Listing(Take(maNews, Shown), r);
      Ok("Recent M&A-Related News (" + NatStr(|maNews|) + " items):\n\n" + listing)
  }

  /** Listing `items[:n]` shows the first `n` items (all of them if fewer),
      the `i`-th under number `i + 1`. */
  lemma ListingOfFirst(items: seq<Value>, n: nat, entry: (nat, Value) -> Result<string>)
    requires Entries(Take(items, n), entry).Ok?
    ensures var entries := Entries(Take(items, n), entry).value;
      |entries| == (if |items| < n then |items| else n) &&
      forall i :: 0 <= i < |entries| ==> entry(i + 1, items[i]).Ok? && entries[i] == entry(i + 1, items[i]).value
  {
    var shown := Take(items, n);
    var entries := Entries(shown, entry).value;
    EntriesInOrder(shown, entry);
    forall i | 0 <= i < |entries|
      ensures entry(i + 1, items[i]).Ok? && entries[i] == entry(i + 1, items[i]).value
    {
      assert shown[i] == items[i];
    }
  }

  /** The `+=` steps that print one listed item. */
  method AppendEntry(output: string, number: nat, item: Value, r: Render) returns (res: Result<string>)
    ensures res == Emitted(output, EntryText(number, item, r))
  {
    if !item.Dict? {
      return Raise(NoAttribute(item, "get"));
    }
    var es := item.entries;
    var title := NatStr(number) + ". " + Str(Get(es, "title", Text("N/A")), r) + "\n";
    var out := output + title;
    var publisher := "   Publisher: " + Str(Get(es, "publisher", Text("N/A")), r) + "\n";
    out := out + publisher;
    AppendAssoc(output, title, publisher);
    var pub := Get(es, "providerPublishTime", Num(0.0));
    var date := "";
    if Truthy(pub) {
      if !IsNumber(pub) {
        return Raise(BadTimestamp(pub));
      }
      date := "   Date: " + r.date(AsReal(pub)) + "\n";
      out := out + date;
      AppendAssoc(output, title + publisher, date);
    } else {
      assert title + publisher + date == title + publisher;
    }
    var link := "   Link: " + Str(Get(es, "link", Text("N/A")), r) + "\n\n";
    out := out + link;
    AppendAssoc(output, title + publisher + date, link);
    return Ok(out);
  }

  /** The listing loop `for i, item in enumerate(ma_news[:5], 1)`, run over
      `items`. */
  method AppendListing(output: string, items: seq<Value>, r: Render) returns (res: Result<string>)
    ensures res == Emitted(output, Listing(items, r))
  {
    var out := output;
    for k := 0 to |items|
      invariant Entries(items[..k], Listed(r)).Ok?
      invariant out == output + Concat(Entries(items[..k], Listed(r)).value)
    {
      var step := AppendEntry(out, k + 1, items[k], r);
      EntriesGrow(items, Listed(r), k);
      if step.Raise? {
        return step;
      }
      AppendAssoc(output, Concat(Entries(items[..k], Listed(r)).value), EntryText(k + 1, items[k], r).value);
      out := step.value;
    }
    assert items[..|items|] == items;
    return Ok(out);
  }

  method AppendNewsSection(output: string, maNews: seq<Value>, r: Render, noNews: string)
    returns (res: Result<string>)
    ensures res == Emitted(output, NewsSection(maNews, r, noNews))
  {
    if maNews == [] {
      return Ok(output + noNews);
    }
    var header := "Recent M&A-Related News (" + NatStr(|maNews|) + " items):\n\n";
    res := AppendListing(output + header, Take(maNews, Shown), r);
    if res.Ok? {
      AppendAssoc(output, header, Listing(Take(maNews, Shown), r).value);
    }
  }
}
