// A model of the home-page dashboard's decisions: how the forex and crypto
// handlers choose between plotting and clearing their charts, which trend
// arrow they show, how a weather card summarises an error, and how the
// weather fetch treats a missing API key.

module Dashboard {
  import opened Options
  import opened Text
  import opened ChartWidgets

  // ---------------------------------------------------------------------------
  // Rates and trends
  // ---------------------------------------------------------------------------

  /** The payload a rate worker returns: a current and a seven-day-old rate, each possibly missing. */
  datatype Quotes = Quotes(current: Option<real>, historical: Option<real>)

  datatype Trend = Rising | Falling | Level

  const Green := "#28a745"
  const Red := "#dc3545"
  const Grey := "#566573"

  function TrendOf(current: real, historical: real): (t: Trend)
    ensures t == Rising <==> current > historical
    ensures t == Falling <==> current < historical
    ensures t == Level <==> current == historical
  {
    if current > historical then Rising
    else if current < historical then Falling
    else Level
  }

  /** The arrow the forex label shows. */
  function ForexArrow(t: Trend): string
  {
    match t
    case Rising => "\U{25b2}"
    case Falling => "\U{25bc}"
    case Level => "\U{2192}"
  }

  /** The arrow the crypto label shows. */
  function CryptoArrow(t: Trend): string
  {
    match t
    case Rising => "\U{2191}"
    case Falling => "\U{2193}"
    case Level => "\U{2192}"
  }

  function ArrowColor(t: Trend): string
  {
    match t
    case Rising => Green
    case Falling => Red
    case Level => Grey
  }

  /** Distinct trends get distinct arrows and colours in both labels. */
  lemma ArrowsTellTrendsApart(s: Trend, t: Trend)
    ensures ForexArrow(s) == ForexArrow(t) <==> s == t
    ensures CryptoArrow(s) == CryptoArrow(t) <==> s == t
    ensures ArrowColor(s) == ArrowColor(t) <==> s == t
  {
  }

  /** Both rates are present and the old one can divide: a trend can be computed and drawn. */
  predicate Plottable(q: Quotes)
  {
    q.current.Some? && q.historical.Some? && q.historical.value != 0.0
  }

  /**
   * What a rate label shows, without the number formatting: the branch
   * the handler took.
   */
  datatype RateLabel =
    | AwaitingRates                // no answer yet
    | ReturnedNone                 // the worker returned no payload
    | Trending(trend: Trend)       // both rates, with an arrow
    | HistoricalWasZero            // current rate only; the old rate was 0
    | TrendNotAvailable            // current rate only; no old rate
    | CurrentNotAvailable          // old rate only
    | AllRatesNotAvailable         // neither rate
    | FetchFailed(errorType: string)  // the worker raised
    | KeyRequired                  // "API Key Required": no forex key, no fetch

  /** The label both rate handlers derive from a payload. */
  function RateLabelOf(payload: Option<Quotes>): (l: RateLabel)
    ensures l == ReturnedNone <==> payload.None?
    ensures l.Trending? <==> payload.Some? && Plottable(payload.value)
    ensures l.Trending? ==>
      l.trend == TrendOf(payload.value.current.value, payload.value.historical.value)
    ensures l == HistoricalWasZero <==>
      payload.Some? && payload.value.current.Some? && payload.value.historical == Some(0.0)
    ensures l == TrendNotAvailable <==>
      payload.Some? && payload.value.current.Some? && payload.value.historical.None?
    ensures l == CurrentNotAvailable <==>
      payload.Some? && payload.value.current.None? && payload.value.historical.Some?
    ensures l == AllRatesNotAvailable <==>
      payload.Some? && payload.value.current.None? && payload.value.historical.None?
    ensures !l.FetchFailed? && !l.AwaitingRates?
  {
    match payload
    case None => ReturnedNone
    case Some(q) =>
      if q.current.Some? then
        if q.historical.Some? && q.historical.value != 0.0 then
          Trending(TrendOf(q.current.value, q.historical.value))
        else if q.historical == Some(0.0) then HistoricalWasZero
        else TrendNotAvailable
      else if q.historical.Some? then CurrentNotAvailable
      else AllRatesNotAvailable
  }

  // ---------------------------------------------------------------------------
  // Chart decisions
  // ---------------------------------------------------------------------------

  /** What a handler does to its chart. */
  datatype ChartAction = Plot(xs: seq<real>, ys: seq<real>, color: string) | Clear | Untouched

  /** Yesterday-and-today x coordinates: 0 stands for seven days ago, 1 for today. */
  const TwoPoints: seq<real> := [0.0, 1.0]

  function ForexChartAction(payload: Option<Quotes>): (a: ChartAction)
    ensures a.Untouched? <==> payload.None?
    ensures a.Plot? <==> payload.Some? && Plottable(payload.value)
    ensures a.Plot? ==>
      a == Plot(TwoPoints, [payload.value.historical.value, payload.value.current.value], "g")
  {
    match payload
    case None => Untouched
    case Some(q) =>
      if Plottable(q) then Plot(TwoPoints, [q.historical.value, q.current.value], "g")
      else Clear
  }

  function CryptoChartAction(payload: Option<Quotes>): (a: ChartAction)
    ensures !a.Untouched?
    ensures a.Plot? <==> payload.Some? && Plottable(payload.value)
    ensures a.Plot? ==>
      a == Plot(TwoPoints, [payload.value.historical.value, payload.value.current.value], "orange")
  {
    match payload
    case None => Clear
    case Some(q) =>
      if Plottable(q) then Plot(TwoPoints, [q.historical.value, q.current.value], "orange")
      else Clear
  }

  /** The chart's data after an action; `drawFails` as in `ChartWidget.UpdateData`. */
  function ChartAfter(a: ChartAction, current: PlotData, drawFails: bool): PlotData
  {
    match a
    case Plot(xs, ys, color) => Updated(current, Sequence(xs), Sequence(ys), Pen(color, 2), drawFails)
    case Clear => NoData
    case Untouched => current
  }

  /**
   * On a payload the two handlers agree: they plot the same points in
   * exactly the cases where the label shows a trend, and clear otherwise.
   */
  lemma HandlersAgree(q: Quotes)
    ensures ForexChartAction(Some(q)).Plot? <==> RateLabelOf(Some(q)).Trending?
    ensures CryptoChartAction(Some(q)).Plot? <==> RateLabelOf(Some(q)).Trending?
    ensures ForexChartAction(Some(q)).Clear? <==> CryptoChartAction(Some(q)).Clear?
    ensures ForexChartAction(Some(q)).Plot? ==>
      ForexChartAction(Some(q)).ys == CryptoChartAction(Some(q)).ys
  {
  }

  /**
   * After a handler runs on a payload, its chart shows the old and the new
   * rate, in that order, exactly when both are present, the old one is not
   * zero and drawing succeeds; otherwise it is empty.
   */
  lemma ChartShowsTrend(q: Quotes, current: PlotData, drawFails: bool, forex: bool)
    ensures var a := if forex then ForexChartAction(Some(q)) else CryptoChartAction(Some(q));
      var after := ChartAfter(a, current, drawFails);
      (after.Points? <==> Plottable(q) && !drawFails) &&
      (after.Points? ==> after.xs == TwoPoints && after.ys == [q.historical.value, q.current.value]) &&
      (!after.Points? ==> after == NoData)
  {
  }

  // ---------------------------------------------------------------------------
  // Weather cards
  // ---------------------------------------------------------------------------

  datatype CityDetail = CityDetail(key: string, displayName: string, query: string)

  const Cities: seq<CityDetail> := [
    CityDetail("Camrose", "Camrose, AB", "Camrose,CA"),
    CityDetail("Wainwright", "Wainwright, AB", "Wainwright,CA"),
    CityDetail("Killam", "Killam, AB", "Killam,CA"),
    CityDetail("Provost", "Provost, AB", "Provost,CA")
  ]

  const ApiKeyErrorSummary := "API Key Error. Details on hover."
  const TimeoutSummary := "Timeout. Details on hover."
  const DefaultSummary := "Details on hover."
  const ApiKeyNotConfigured := "API Key Not Configured"

  /** The short error text a weather card shows; the full message goes to its tooltip. */
  function BriefSummary(detail: string, isApiKeyError: bool): (r: string)
    ensures r == ApiKeyErrorSummary <==> isApiKeyError
    ensures r == TimeoutSummary <==> !isApiKeyError && Contains(Lower(detail), "timeout")
    ensures r == DefaultSummary <==> !isApiKeyError && !Contains(Lower(detail), "timeout")
  {
    if isApiKeyError then ApiKeyErrorSummary
    else if Contains(Lower(detail), "timeout") then TimeoutSummary
    else DefaultSummary
  }

  /** A weather card's state: fetching, failed, or anything else it shows. */
  datatype CardState =
    | Fetching(cityName: string)
    | Failed(cityName: string, detail: string, summary: string, apiKeyError: bool)
    | Showing

  function ErrorCard(cityName: string, detail: string, isApiKeyError: bool): (c: CardState)
    ensures c.Failed? && c.cityName == cityName && c.detail == detail && c.apiKeyError == isApiKeyError
    ensures c.summary == BriefSummary(detail, isApiKeyError)
  {
    Failed(cityName, detail, BriefSummary(detail, isApiKeyError), isApiKeyError)
  }


  /** The card name for an error: the display name of the first city with that key, else the key. */
  function DisplayName(key: string, cities: seq<CityDetail>): (r: string)
    ensures r == key || exists i :: 0 <= i < |cities| && cities[i].key == key && r == cities[i].displayName
  {
    if cities == [] then key
    else if cities[0].key == key then cities[0].displayName
    else DisplayName(key, cities[1..])
  }

  lemma {:induction false} DisplayNameFound(key: string, cities: seq<CityDetail>, i: nat)
    requires i < |cities| && cities[i].key == key
    requires forall j :: 0 <= j < i ==> cities[j].key != key
    ensures DisplayName(key, cities) == cities[i].displayName
  {
    if i > 0 {
      DisplayNameFound(key, cities[1..], i - 1);
    }
  }

  lemma {:induction false} DisplayNameFallback(key: string, cities: seq<CityDetail>)
    requires forall j :: 0 <= j < |cities| ==> cities[j].key != key
    ensures DisplayName(key, cities) == key
  {
    if cities != [] {
      DisplayNameFallback(key, cities[1..]);
    }
  }

  /** The name a weather error is reported under. */
  method LookupDisplayName(key: string) returns (name: string)
    ensures name == DisplayName(key, Cities)
  {
    var i := 0;
    while i < |Cities| && Cities[i].key != key
      invariant 0 <= i <= |Cities|
      invariant forall j :: 0 <= j < i ==> Cities[j].key != key
    {
      i := i + 1;
    }
    if i < |Cities| {
      DisplayNameFound(key, Cities, i);
      name := Cities[i].displayName;
    } else {
      DisplayNameFallback(key, Cities);
      name := key;
    }
  }

  /** The two kinds of card update the weather fetch applies to every city. */
  datatype CardUpdate = MarkFetching | MarkKeyMissing

  function Marked(c: CityDetail, u: CardUpdate): (r: CardState)
    ensures r.Failed? <==> u.MarkKeyMissing?
    ensures r.Fetching? <==> u.MarkFetching?
    ensures !r.Showing? ==> r.cityName == c.displayName
    ensures r.Failed? ==> r.apiKeyError && r.detail == ApiKeyNotConfigured && r.summary == ApiKeyErrorSummary
  {
    match u
    case MarkFetching => Fetching(c.displayName)
    case MarkKeyMissing => ErrorCard(c.displayName, ApiKeyNotConfigured, true)
  }

  /** The cards after visiting `cities` in order and updating each one that has a card. */
  function MarkAll(cards: map<string, CardState>, cities: seq<CityDetail>, u: CardUpdate): (r: map<string, CardState>)
    ensures r.Keys == cards.Keys
    decreases |cities|
  {
    if cities == [] then cards
    else
      var prev := MarkAll(cards, cities[..|cities| - 1], u);
      var c := cities[|cities| - 1];
      if c.key in prev then prev[c.key := Marked(c, u)] else prev
  }

  /** The keys of the cities, in order. */
  function CityKeys(cities: seq<CityDetail>): (r: seq<string>)
    ensures |r| == |cities| && forall i :: 0 <= i < |cities| ==> r[i] == cities[i].key
  {
    seq(|cities|, i requires 0 <= i < |cities| => cities[i].key)
  }

  /** `a` is `b` with some elements left out and the rest kept in order. */
  predicate IsSubsequence(a: seq<string>, b: seq<string>)
    decreases |b|
  {
    if |b| == 0 then a == []
    else (|a| > 0 && a[|a| - 1] == b[|b| - 1] && IsSubsequence(a[..|a| - 1], b[..|b| - 1]))
         || IsSubsequence(a, b[..|b| - 1])
  }

  /** The keys of the cities, in order, that have a card. */
  function WithCards(cards: map<string, CardState>, cities: seq<CityDetail>): (r: seq<string>)
    ensures forall k :: k in r ==> k in cards
    ensures |r| <= |cities|
    decreases |cities|
  {
    if cities == [] then []
    else
      var prev := WithCards(cards, cities[..|cities| - 1]);
      var c := cities[|cities| - 1];
      if c.key in cards then prev + [c.key] else prev
  }

  /**
   * Every city with a card has its fetch started, only cities' keys are
   * started, and the cities' order is kept.
   */
  lemma {:induction false} WithCardsStarted(cards: map<string, CardState>, cities: seq<CityDetail>)
    ensures var r := WithCards(cards, cities);
            (forall i :: 0 <= i < |cities| && cities[i].key in cards ==> cities[i].key in r)
            && (forall k :: k in r ==> k in cards && exists i :: 0 <= i < |cities| && cities[i].key == k)
            && IsSubsequence(r, CityKeys(cities))
    decreases |cities|
  {
    if cities != [] {
      var init := cities[..|cities| - 1];
      WithCardsStarted(cards, init);
      var prev := WithCards(cards, init);
      var c := cities[|cities| - 1];
      assert CityKeys(cities)[..|cities| - 1] == CityKeys(init);
      assert forall i :: 0 <= i < |init| ==> init[i] == cities[i];
      if c.key in cards {
        assert (prev + [c.key])[..|prev|] == prev;
      }
    }
  }

  lemma {:induction false} MarkAllSkips(cards: map<string, CardState>, cities: seq<CityDetail>, u: CardUpdate, k: string)
    requires k in cards
    requires forall j :: 0 <= j < |cities| ==> cities[j].key != k
    ensures MarkAll(cards, cities, u)[k] == cards[k]
    decreases |cities|
  {
    if cities != [] {
      MarkAllSkips(cards, cities[..|cities| - 1], u, k);
    }
  }

  /** A card ends up as the update of the last city with its key. */
  lemma {:induction false} MarkAllLastWins(cards: map<string, CardState>, cities: seq<CityDetail>, u: CardUpdate, k: string, i: nat)
    requires k in cards
    requires i < |cities| && cities[i].key == k
    requires forall j :: i < j < |cities| ==> cities[j].key != k
    ensures MarkAll(cards, cities, u)[k] == Marked(cities[i], u)
    decreases |cities|
  {
    var init := cities[..|cities| - 1];
    if i < |cities| - 1 {
      MarkAllLastWins(cards, init, u, k, i);
    }
  }

  predicate DistinctKeys(cities: seq<CityDetail>)
  {
    forall i, j :: 0 <= i < j < |cities| ==> cities[i].key != cities[j].key
  }

  /** With distinct keys, every city that has a card gets its update, and no other card changes. */
  lemma MarkAllEffect(cards: map<string, CardState>, cities: seq<CityDetail>, u: CardUpdate, k: string)
    requires DistinctKeys(cities) && k in cards
    ensures forall i :: 0 <= i < |cities| && cities[i].key == k ==>
      MarkAll(cards, cities, u)[k] == Marked(cities[i], u)
    ensures (forall j :: 0 <= j < |cities| ==> cities[j].key != k) ==>
      MarkAll(cards, cities, u)[k] == cards[k]
  {
    forall i | 0 <= i < |cities| && cities[i].key == k
      ensures MarkAll(cards, cities, u)[k] == Marked(cities[i], u)
    {
      MarkAllLastWins(cards, cities, u, k, i);
    }
    if forall j :: 0 <= j < |cities| ==> cities[j].key != k {
      MarkAllSkips(cards, cities, u, k);
    }
  }

  lemma CityKeysDistinct()
    ensures DistinctKeys(Cities)
  {
  }

  /** The cards the dashboard creates, one per city, each showing that it is fetching. */
  function InitialCards(cities: seq<CityDetail>): (r: map<string, CardState>)
    ensures forall i :: 0 <= i < |cities| ==> cities[i].key in r
    ensures forall k :: k in r ==> exists i :: 0 <= i < |cities| && cities[i].key == k
    ensures forall k :: k in r ==> r[k].Fetching?
    decreases |cities|
  {
    if cities == [] then map[]
    else
      var c := cities[|cities| - 1];
      InitialCards(cities[..|cities| - 1])[c.key := Fetching(c.displayName)]
  }

  /** The card of a city is fetching under the display name of the last city with its key. */
  lemma {:induction false} InitialCardOf(cities: seq<CityDetail>, i: nat)
    requires i < |cities|
    requires forall j :: i < j < |cities| ==> cities[j].key != cities[i].key
    ensures InitialCards(cities)[cities[i].key] == Fetching(cities[i].displayName)
    decreases |cities|
  {
    var init := cities[..|cities| - 1];
    if i < |cities| - 1 {
      InitialCardOf(init, i);
    }
  }

  /** Each of the dashboard's cities gets a card fetching under its own display name. */
  lemma InitialCardsOfCities()
    ensures forall i :: 0 <= i < |Cities| ==> InitialCards(Cities)[Cities[i].key] == Fetching(Cities[i].displayName)
  {
    CityKeysDistinct();
    forall i | 0 <= i < |Cities|
      ensures InitialCards(Cities)[Cities[i].key] == Fetching(Cities[i].displayName)
    {
      InitialCardOf(Cities, i);
    }
  }

  /** After the first weather fetch, each city's card carries that fetch's update under its own display name. */
  lemma MarkedCardsOfCities(u: CardUpdate)
    ensures forall i :: 0 <= i < |Cities| ==>
      MarkAll(InitialCards(Cities), Cities, u)[Cities[i].key] == Marked(Cities[i], u)
  {
    CityKeysDistinct();
    forall i | 0 <= i < |Cities|
      ensures MarkAll(InitialCards(Cities), Cities, u)[Cities[i].key] == Marked(Cities[i], u)
    {
      MarkAllEffect(InitialCards(Cities), Cities, u, Cities[i].key);
    }
  }

  /** `if not key`: a missing or empty key counts as absent. */
  predicate HasKey(key: Option<string>)
  {
    key.Some? && key.value != ""
  }

  // ---------------------------------------------------------------------------
  // The dashboard
  // ---------------------------------------------------------------------------

  class HomePageDashboard {
    const usdcadChart: ChartWidget
    const btcChart: ChartWidget
    var forexLabel: RateLabel
    var btcLabel: RateLabel
    var status: string
    var weatherApiKey: Option<string>
    var exchangeRateApiKey: Option<string>
    var weatherCards: map<string, CardState>

    predicate Valid()
    {
      usdcadChart != btcChart
    }

    /**
     * `__init__`: builds the cards and labels (`_init_ui`), then runs
     * `load_module_data`, whose synchronous part decides the first state.
     */
    constructor (weatherApiKey: Option<string>, exchangeRateApiKey: Option<string>)
      ensures Valid() && fresh(usdcadChart) && fresh(btcChart)
      ensures usdcadChart.data == NoData && btcChart.data == NoData
      ensures this.weatherApiKey == weatherApiKey && this.exchangeRateApiKey == exchangeRateApiKey
      ensures weatherCards.Keys == InitialCards(Cities).Keys
      ensures HasKey(weatherApiKey) ==>
        forall i :: 0 <= i < |Cities| ==> weatherCards[Cities[i].key] == Fetching(Cities[i].displayName)
      ensures !HasKey(weatherApiKey) ==>
        forall i :: 0 <= i < |Cities| ==>
          weatherCards[Cities[i].key] == ErrorCard(Cities[i].displayName, ApiKeyNotConfigured, true)
      ensures forexLabel == (if HasKey(exchangeRateApiKey) then AwaitingRates else KeyRequired)
      ensures btcLabel == AwaitingRates
      ensures status == "Fetching BTC-USD data..."
    {
      usdcadChart := new ChartWidget();
      btcChart := new ChartWidget();
      forexLabel := AwaitingRates;
      btcLabel := AwaitingRates;
      status := "";
      this.weatherApiKey := weatherApiKey;
      this.exchangeRateApiKey := exchangeRateApiKey;
      weatherCards := InitialCards(Cities);
      new;
      var _, _ := LoadModuleData();
      var u := if HasKey(weatherApiKey) then MarkFetching else MarkKeyMissing;
      assert weatherCards == MarkAll(InitialCards(Cities), Cities, u);
      MarkedCardsOfCities(u);
    }

    /**
     * `load_module_data`: starts the weather, forex and crypto fetches in
     * that order. Returns the cities whose weather fetch started and whether
     * the forex fetch started.
     */
    method LoadModuleData() returns (weatherStarted: seq<string>, forexStarted: bool)
      requires Valid()
      modifies this, usdcadChart, btcChart
      ensures !HasKey(weatherApiKey) ==>
        weatherStarted == [] && weatherCards == MarkAll(old(weatherCards), Cities, MarkKeyMissing)
      ensures HasKey(weatherApiKey) ==>
        weatherStarted == WithCards(old(weatherCards), Cities) &&
        weatherCards == MarkAll(old(weatherCards), Cities, MarkFetching)
      ensures forexStarted == HasKey(exchangeRateApiKey)
      ensures forexLabel == (if forexStarted then AwaitingRates else KeyRequired)
      ensures btcLabel == AwaitingRates
      ensures usdcadChart.data == NoData && btcChart.data == NoData
      ensures status == "Fetching BTC-USD data..."
      ensures weatherApiKey == old(weatherApiKey) && exchangeRateApiKey == old(exchangeRateApiKey)
    {
      status := "Data loading initiated...";
      weatherStarted := FetchWeatherData();
      forexStarted := FetchForexData();
      FetchCryptoPrices();
    }

    /**
     * `_fetch_forex_data`: shows that rates are being fetched and clears the
     * chart; without an exchange-rate key no fetch starts and the label says so.
     */
    method FetchForexData() returns (started: bool)
      requires Valid()
      modifies this, usdcadChart
      ensures started == HasKey(exchangeRateApiKey)
      ensures forexLabel == (if started then AwaitingRates else KeyRequired)
      ensures usdcadChart.data == NoData
      ensures status == (if started then "Fetching USD-CAD data..." else "Forex: API Key Required")
      ensures btcChart.data == old(btcChart.data) && btcLabel == old(btcLabel)
      ensures weatherCards == old(weatherCards) && weatherApiKey == old(weatherApiKey) && exchangeRateApiKey == old(exchangeRateApiKey)
    {
      forexLabel := AwaitingRates;
      usdcadChart.ClearPlot();
      status := "Fetching USD-CAD data...";
      if !HasKey(exchangeRateApiKey) {
        forexLabel := KeyRequired;
        status := "Forex: API Key Required";
        return false;
      }
      started := true;
    }

    /** `_fetch_crypto_prices`: the crypto fetch needs no key and always starts. */
    method FetchCryptoPrices()
      requires Valid()
      modifies this, btcChart
      ensures btcLabel == AwaitingRates && btcChart.data == NoData
      ensures status == "Fetching BTC-USD data..."
      ensures usdcadChart.data == old(usdcadChart.data) && forexLabel == old(forexLabel)
      ensures weatherCards == old(weatherCards) && weatherApiKey == old(weatherApiKey) && exchangeRateApiKey == old(exchangeRateApiKey)
    {
      btcLabel := AwaitingRates;
      btcChart.ClearPlot();
      status := "Fetching BTC-USD data...";
    }

    /** Shows a forex payload; a missing payload leaves the chart as it was. */
    method OnForexDataReceived(payload: Option<Quotes>, drawFails: bool)
      requires Valid()
      modifies this, usdcadChart
      ensures forexLabel == RateLabelOf(payload)
      ensures usdcadChart.data == ChartAfter(ForexChartAction(payload), old(usdcadChart.data), drawFails)
      ensures status == (if payload.None? then "Forex: Error" else "Forex data updated.")
      ensures btcChart.data == old(btcChart.data) && btcLabel == old(btcLabel)
      ensures weatherCards == old(weatherCards) && weatherApiKey == old(weatherApiKey) && exchangeRateApiKey == old(exchangeRateApiKey)
    {
      if payload.None? {
        forexLabel := ReturnedNone;
        status := "Forex: Error";
        return;
      }
      var current := payload.value.current;
      var historical := payload.value.historical;
      var shown := AllRatesNotAvailable;
      if current.Some? {
        if historical.Some? && historical.value != 0.0 {
          shown := Trending(TrendOf(current.value, historical.value));
          usdcadChart.UpdateData(Sequence(TwoPoints), Sequence([historical.value, current.value]), "g", 2, drawFails);
        } else if historical == Some(0.0) {
          shown := HistoricalWasZero;
          usdcadChart.ClearPlot();
        } else {
          shown := TrendNotAvailable;
          usdcadChart.ClearPlot();
        }
      } else if historical.Some? {
        shown := CurrentNotAvailable;
        usdcadChart.ClearPlot();
      } else {
        usdcadChart.ClearPlot();
      }
      forexLabel := shown;
      status := "Forex data updated.";
    }

    /** A failed forex fetch always clears the chart. */
    method OnForexDataError(errorType: string)
      requires Valid()
      modifies this, usdcadChart
      ensures forexLabel == FetchFailed(errorType) && usdcadChart.data == NoData
      ensures status == "Forex: Error"
      ensures btcChart.data == old(btcChart.data) && btcLabel == old(btcLabel)
      ensures weatherCards == old(weatherCards) && weatherApiKey == old(weatherApiKey) && exchangeRateApiKey == old(exchangeRateApiKey)
    {
      forexLabel := FetchFailed(errorType);
      usdcadChart.ClearPlot();
      status := "Forex: Error";
    }

    /** Shows a crypto payload; unlike the forex handler, a missing payload clears the chart. */
    method OnCryptoDataReceived(payload: Option<Quotes>, drawFails: bool)
      requires Valid()
      modifies this, btcChart
      ensures btcLabel == RateLabelOf(payload)
      ensures btcChart.data == ChartAfter(CryptoChartAction(payload), old(btcChart.data), drawFails)
      ensures status == (if payload.None? then "Crypto: Error" else "Crypto data updated.")
      ensures usdcadChart.data == old(usdcadChart.data) && forexLabel == old(forexLabel)
      ensures weatherCards == old(weatherCards) && weatherApiKey == old(weatherApiKey) && exchangeRateApiKey == old(exchangeRateApiKey)
    {
      if payload.None? {
        btcLabel := ReturnedNone;
        btcChart.ClearPlot();
        status := "Crypto: Error";
        return;
      }
      var current := payload.value.current;
      var historical := payload.value.historical;
      var shown := AllRatesNotAvailable;
      if current.Some? {
        if historical.Some? && historical.value != 0.0 {
          shown := Trending(TrendOf(current.value, historical.value));
          btcChart.UpdateData(Sequence(TwoPoints), Sequence([historical.value, current.value]), "orange", 2, drawFails);
        } else if historical == Some(0.0) {
          shown := HistoricalWasZero;
          btcChart.ClearPlot();
        } else {
          shown := TrendNotAvailable;
          btcChart.ClearPlot();
        }
      } else if historical.Some? {
        shown := CurrentNotAvailable;
        btcChart.ClearPlot();
      } else {
        btcChart.ClearPlot();
      }
      btcLabel := shown;
      status := "Crypto data updated.";
    }

    /** A failed crypto fetch always clears the chart. */
    method OnCryptoDataError(errorType: string)
      requires Valid()
      modifies this, btcChart
      ensures btcLabel == FetchFailed(errorType) && btcChart.data == NoData
      ensures status == "Crypto: Error"
      ensures usdcadChart.data == old(usdcadChart.data) && forexLabel == old(forexLabel)
      ensures weatherCards == old(weatherCards) && weatherApiKey == old(weatherApiKey) && exchangeRateApiKey == old(exchangeRateApiKey)
    {
      btcLabel := FetchFailed(errorType);
      btcChart.ClearPlot();
      status := "Crypto: Error";
    }

    /**
     * Starts a weather fetch for every city that has a card and returns
     * their keys, in order. Without an API key no fetch starts and every
     * card shows an API-key error instead.
     */
    method FetchWeatherData() returns (started: seq<string>)
      modifies this
      ensures !HasKey(weatherApiKey) ==>
        started == [] && weatherCards == MarkAll(old(weatherCards), Cities, MarkKeyMissing) &&
        status == "Weather: API Key Required"
      ensures HasKey(weatherApiKey) ==>
        started == WithCards(old(weatherCards), Cities) &&
        weatherCards == MarkAll(old(weatherCards), Cities, MarkFetching) &&
        status == "Fetching all weather data..."
      ensures weatherApiKey == old(weatherApiKey) && exchangeRateApiKey == old(exchangeRateApiKey) && forexLabel == old(forexLabel) && btcLabel == old(btcLabel)
    {
      status := "Fetching all weather data...";
      if !HasKey(weatherApiKey) {
        MarkKeyMissingCards();
        status := "Weather: API Key Required";
        return [];
      }
      started := StartCityFetches();
    }

    /** The loop of `_fetch_weather_data` without a key: every card shows the API-key error. */
    method MarkKeyMissingCards()
      modifies this
      ensures weatherCards == MarkAll(old(weatherCards), Cities, MarkKeyMissing)
      ensures status == old(status) && weatherApiKey == old(weatherApiKey) && exchangeRateApiKey == old(exchangeRateApiKey)
      ensures forexLabel == old(forexLabel) && btcLabel == old(btcLabel)
    {
      for i := 0 to |Cities|
        invariant weatherCards == MarkAll(old(weatherCards), Cities[..i], MarkKeyMissing)
        invariant status == old(status) && weatherApiKey == old(weatherApiKey) && exchangeRateApiKey == old(exchangeRateApiKey)
        invariant forexLabel == old(forexLabel) && btcLabel == old(btcLabel)
      {
        var c := Cities[i];
        assert Cities[..i + 1][..i] == Cities[..i];
        if c.key in weatherCards {
          weatherCards := weatherCards[c.key := Marked(c, MarkKeyMissing)];
        }
      }
      assert Cities[..|Cities|] == Cities;
    }

    /**
     * The loop of `_fetch_weather_data` with a key: every city with a card is
     * marked fetching and has its fetch started, in order.
     */
    method StartCityFetches() returns (started: seq<string>)
      modifies this
      ensures started == WithCards(old(weatherCards), Cities)
      ensures weatherCards == MarkAll(old(weatherCards), Cities, MarkFetching)
      ensures status == old(status) && weatherApiKey == old(weatherApiKey) && exchangeRateApiKey == old(exchangeRateApiKey)
      ensures forexLabel == old(forexLabel) && btcLabel == old(btcLabel)
    {
      started := [];
      for i := 0 to |Cities|
        invariant weatherCards == MarkAll(old(weatherCards), Cities[..i], MarkFetching)
        invariant started == WithCards(old(weatherCards), Cities[..i])
        invariant status == old(status) && weatherApiKey == old(weatherApiKey) && exchangeRateApiKey == old(exchangeRateApiKey)
        invariant forexLabel == old(forexLabel) && btcLabel == old(btcLabel)
      {
        var c := Cities[i];
        assert Cities[..i + 1][..i] == Cities[..i];
        if c.key !in weatherCards {
          continue;
        }
        weatherCards := weatherCards[c.key := Marked(c, MarkFetching)];
        started := started + [c.key];
      }
      assert Cities[..|Cities|] == Cities;
    }

    /** Marks the card of a failed city fetch; an unknown key changes nothing. */
    method OnWeatherDataError(cityKey: string, message: string)
      modifies this
      ensures cityKey in old(weatherCards) ==>
        weatherCards == old(weatherCards)[cityKey := ErrorCard(DisplayName(cityKey, Cities), message, false)]
      ensures cityKey !in old(weatherCards) ==> weatherCards == old(weatherCards)
      ensures status == old(status) && weatherApiKey == old(weatherApiKey) && exchangeRateApiKey == old(exchangeRateApiKey)
      ensures forexLabel == old(forexLabel) && btcLabel == old(btcLabel)
    {
      var name := LookupDisplayName(cityKey);
      if cityKey in weatherCards {
        weatherCards := weatherCards[cityKey := ErrorCard(name, message, false)];
      }
    }
  }
}
