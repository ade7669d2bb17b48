/** The sector dropdown shared by both Gradio front ends: the popular tickers
    of each sector, and `update_companies`, which fills the company dropdown
    when a sector is picked. */
module Sectors {
  import opened Py
  import opened Strings

  const Technology: seq<string> := ["AAPL", "MSFT", "GOOGL", "META", "NVDA", "AMD", "TSLA", "AMZN"]
  const Finance: seq<string> := ["JPM", "BAC", "WFC", "GS", "MS", "C", "V", "MA"]
  const Healthcare: seq<string> := ["JNJ", "UNH", "PFE", "ABBV", "MRK", "TMO", "DHR", "CVS"]
  const Consumer: seq<string> := ["WMT", "HD", "NKE", "MCD", "SBUX", "COST", "TGT", "LOW"]
  const Energy: seq<string> := ["XOM", "CVX", "COP", "SLB", "EOG", "MPC", "PSX", "VLO"]
  const Industrial: seq<string> := ["CAT", "BA", "GE", "HON", "UPS", "LMT", "DE", "MMM"]

  /** `POPULAR_TICKERS`. */
  const PopularTickers: map<string, seq<string>> := map[
    "Technology" := Technology, "Finance" := Finance, "Healthcare" := Healthcare,
    "Consumer" := Consumer, "Energy" := Energy, "Industrial" := Industrial]

  /** `gr.update(choices=..., value=...)` for the company dropdown. */
  datatype Update = Update(choices: seq<string>, value: Option<string>)

  /** `update_companies(sector)`; the empty string stands for the falsy
      sectors (`None` and `""`). A sector the table does not hold raises
      KeyError. */
  function UpdateCompanies(sector: string): (u: Result<Update>)
    ensures u.Ok? ==> u.value.value.None?
    ensures sector == "" ==> u == Ok(Update([], None))
    ensures sector != "" ==> (u.Ok? <==> sector in PopularTickers)
    ensures u.Ok? && sector != "" ==> u.value.choices == PopularTickers[sector]
  {
    if sector != "" then
      if sector in PopularTickers then Ok(Update(PopularTickers[sector], None))
      else Raise(MissingKey(sector))
    else Ok(Update([], None))
  }

  /** A well-formed ticker: one to five upper-case letters. */
  predicate IsTicker(t: string) {
    1 <= |t| <= 5 && forall k :: 0 <= k < |t| ==> IsUpperLetter(t[k])
  }

  /** Every company the dropdown can offer is a well-formed ticker, which
      upper-casing leaves unchanged. */
  lemma ChoicesAreTickers(sector: string)
    ensures UpdateCompanies(sector).Ok? ==>
      forall t :: t in UpdateCompanies(sector).value.choices ==> IsTicker(t) && Upper(t) == t
  {
    var u := UpdateCompanies(sector);
    if u.Ok? {
      forall t | t in u.value.choices
        ensures IsTicker(t) && Upper(t) == t
      {
        TableTickers(sector);
        assert Upper(t) == t;
      }
    }
  }

  /** Every ticker of one sector is well formed. */
  predicate AllTickers(choices: seq<string>) {
    forall i :: 0 <= i < |choices| ==> IsTicker(choices[i])
  }

  // The tickers of each sector are well formed.
  lemma TechnologyTickers()
    ensures AllTickers(Technology)
  {
    assert forall i :: 0 <= i < |Technology| ==> IsTicker(Technology[i]);
  }

  lemma FinanceTickers()
    ensures AllTickers(Finance)
  {
    assert forall i :: 0 <= i < |Finance| ==> IsTicker(Finance[i]);
  }

  lemma HealthcareTickers()
    ensures AllTickers(Healthcare)
  {
    assert forall i :: 0 <= i < |Healthcare| ==> IsTicker(Healthcare[i]);
  }

  lemma ConsumerTickers()
    ensures AllTickers(Consumer)
  {
    assert forall i :: 0 <= i < |Consumer| ==> IsTicker(Consumer[i]);
  }

  lemma EnergyTickers()
    ensures AllTickers(Energy)
  {
    assert forall i :: 0 <= i < |Energy| ==> IsTicker(Energy[i]);
  }

  lemma IndustrialTickers()
    ensures AllTickers(Industrial)
  {
    assert forall i :: 0 <= i < |Industrial| ==> IsTicker(Industrial[i]);
  }

  /** The tickers of the table are well formed. */
  lemma TableTickers(sector: string)
    requires sector in PopularTickers
    ensures AllTickers(PopularTickers[sector])
  {
    TechnologyTickers();
    FinanceTickers();
    HealthcareTickers();
    ConsumerTickers();
    EnergyTickers();
    IndustrialTickers();
  }
}
