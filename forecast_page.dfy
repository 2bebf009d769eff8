/** The forecast page: its submit handler around the two concurrent trend
    requests, the composition of the historical chart and the two-track
    forecast chart, and the theme palette. */
module ForecastPage {
  import opened Common

  /** A historical interest point as received: `{date, value}`. */
  datatype InterestPoint = InterestPoint(date: string, value: int)

  /** A forecast point as received: `{ds, yhat}`. */
  datatype ForecastPoint = ForecastPoint(ds: string, yhat: real)

  /** `new Date(d).toLocaleDateString()`, a locale-dependent label. */
  type DateFormatter = string -> string

  const EmptyKeywordMessage: string := "Please enter a keyword."
  const FallbackMessage: string := "An unexpected error occurred. Please try another keyword."

  // ---------------------------------------------------------------------------
  // Requests

  /** `promotionDate ? [promotionDate] : []`. */
  function PromotionDates(promotionDate: string): (r: seq<string>)
    ensures promotionDate != "" ==> r == [promotionDate]
    ensures promotionDate == "" ==> r == []
  {
    if promotionDate != "" then [promotionDate] else []
  }

  /** The body posted to the forecast endpoint. */
  datatype ForecastRequest = ForecastRequest(keyword: string, model: string, promotionDates: seq<string>)

  /** The two requests issued together: the interest request posts only the keyword. */
  datatype Requests = Requests(interestKeyword: string, forecast: ForecastRequest)

  /** `api.post('/trends/interest-over-time', { keyword })` beside
      `api.post('/trends/forecast', requestBody)`: both post the same keyword;
      only the forecast names the model, with a promotion date exactly when
      the field is non-empty. */
  function RequestsFor(keyword: string, model: string, promotionDate: string): (r: Requests)
    ensures r.interestKeyword == keyword && r.forecast.keyword == keyword
    ensures r.forecast.model == model
    ensures |r.forecast.promotionDates| <= 1
    ensures r.forecast.promotionDates == [] <==> promotionDate == ""
    ensures r.forecast.promotionDates != [] ==> r.forecast.promotionDates[0] == promotionDate
  {
    Requests(keyword, ForecastRequest(keyword, model, PromotionDates(promotionDate)))
  }

  /** What `await Promise.all([...])` settles to: both bodies, or the error of
      a rejected request. */
  datatype FanIn = BothResolved(interest: seq<InterestPoint>, forecast: seq<ForecastPoint>) | OneRejected(error: Error)

  /** `Promise.all` over the two requests. When both reject, the one that
      rejects first in time decides the error: `interestFirst` says which. */
  function AllOf(interest: Outcome<seq<InterestPoint>>, forecast: Outcome<seq<ForecastPoint>>, interestFirst: bool): (r: FanIn)
    ensures r.BothResolved? <==> interest.Resolved? && forecast.Resolved?
    ensures r.BothResolved? ==> r.interest == interest.value && r.forecast == forecast.value
    ensures r.OneRejected? ==> (interest.Rejected? && r.error == interest.error) || (forecast.Rejected? && r.error == forecast.error)
  {
    match (interest, forecast)
    case (Resolved(h), Resolved(f)) => BothResolved(h, f)
    case (Rejected(e), Resolved(_)) => OneRejected(e)
    case (Resolved(_), Rejected(e)) => OneRejected(e)
    case (Rejected(e1), Rejected(e2)) => OneRejected(if interestFirst then e1 else e2)
  }

  // ---------------------------------------------------------------------------
  // Theme palette

  /** `chartColors`: the series colours picked at submit time. */
  datatype ChartColors = ChartColors(historical: string, historicalBg: string, forecast: string)

  /** Only 'dark' picks the dark series colours, and the forecast line is
      always drawn in a colour other than the historical one. */
  function ChartColorsFor(theme: string): (r: ChartColors)
    ensures theme == "dark" <==> r.historical == "#818cf8"
    ensures r.forecast != r.historical
  {
    if theme == "dark" then ChartColors("#818cf8", "rgba(129, 140, 248, 0.1)", "#f472b6")
    else ChartColors("#4f46e5", "rgba(79, 70, 229, 0.1)", "#ef4444")
  }

  /** The colours `getChartOptions` sets: legend, tooltip and both axes. */
  datatype OptionsPalette = OptionsPalette(
    legend: string, tooltipBackground: string, tooltipTitle: string, tooltipBody: string,
    tooltipBorder: string, ticks: string, grid: string)

  /** Only 'dark' picks the dark options; tooltip text uses the legend
      colour, which differs from the tooltip background. */
  function ChartOptions(theme: string): (r: OptionsPalette)
    ensures theme == "dark" <==> r.legend == "#f9fafb"
    ensures r.tooltipTitle == r.legend && r.tooltipBody == r.legend && r.legend != r.tooltipBackground
  {
    if theme == "dark" then
      OptionsPalette("#f9fafb", "#374151", "#f9fafb", "#f9fafb", "#4b5563", "#9ca3af", "rgba(55, 65, 81, 0.5)")
    else
      OptionsPalette("#111827", "#fff", "#111827", "#111827", "#e5e7eb", "#6b7280", "rgba(229, 231, 235, 0.5)")
  }

  /** Only `'dark'` selects the dark palette: every other theme value, not
      just `'light'`, selects the light one, and the two differ. */
  lemma TwoPalettes(theme: string)
    ensures theme != "dark" ==> ChartColorsFor(theme) == ChartColorsFor("light") && ChartOptions(theme) == ChartOptions("light")
    ensures ChartColorsFor("dark") != ChartColorsFor("light") && ChartOptions("dark") != ChartOptions("light")
  {
  }

  // ---------------------------------------------------------------------------
  // Chart composition

  datatype Dataset<T> = Dataset(caption: string, data: seq<T>, borderColor: string)

  /** `interestChartData`: one filled line over the historical points. */
  datatype HistoricalChart = HistoricalChart(labels: seq<string>, dataset: Dataset<int>, background: string)

  /** `forecastChartData`: one label axis, the historical track and the
      forecast track (None standing for `null`). */
  datatype CompositeChart = CompositeChart(labels: seq<string>, historical: Dataset<int>, forecast: Dataset<Option<real>>)

  function HistoricalLabels(h: seq<InterestPoint>, format: DateFormatter): seq<string>
  {
    seq(|h|, i requires 0 <= i < |h| => format(h[i].date))
  }

  function HistoricalValues(h: seq<InterestPoint>): seq<int>
  {
    seq(|h|, i requires 0 <= i < |h| => h[i].value)
  }

  function ForecastLabels(f: seq<ForecastPoint>, format: DateFormatter): seq<string>
  {
    seq(|f|, j requires 0 <= j < |f| => format(f[j].ds))
  }

  function Predictions(f: seq<ForecastPoint>): seq<Option<real>>
  {
    seq(|f|, j requires 0 <= j < |f| => Some(f[j].yhat))
  }

  /** `Array(n).fill(null)`. */
  function Nulls(n: nat): seq<Option<real>>
  {
    seq(n, _ => None)
  }

  /** The forecast track: |H|-1 nulls, the last historical value (the join),
      then every prediction. `Array(-1)` throws a RangeError when H is empty,
      which is None here. */
  function ForecastTrack(h: seq<InterestPoint>, f: seq<ForecastPoint>): (r: Option<seq<Option<real>>>)
    ensures r.None? <==> |h| == 0
    ensures r.Some? ==> |r.value| == |h| + |f|
  {
    if |h| == 0 then None
    else Some(Nulls(|h| - 1) + [Some(h[|h| - 1].value as real)] + Predictions(f))
  }

  /** `interestChartData`: one label and one value per historical point,
      in order, in the theme's historical colour. */
  function InterestChart(h: seq<InterestPoint>, keyword: string, theme: string, format: DateFormatter): (r: HistoricalChart)
    ensures |r.labels| == |h| && |r.dataset.data| == |h|
    ensures forall i :: 0 <= i < |h| ==> r.labels[i] == format(h[i].date) && r.dataset.data[i] == h[i].value
    ensures r.dataset.borderColor == ChartColorsFor(theme).historical
  {
    var colors := ChartColorsFor(theme);
    HistoricalChart(
      HistoricalLabels(h, format),
      Dataset("Historical Interest for \"" + keyword + "\"", HistoricalValues(h), colors.historical),
      colors.historicalBg)
  }

  /** The composite chart, None where building it throws. */
  function Composite(h: seq<InterestPoint>, f: seq<ForecastPoint>, model: string, theme: string, format: DateFormatter)
    : (r: Option<CompositeChart>)
    ensures r.Some? <==> |h| >= 1
    ensures r.Some? ==>
              && |r.value.labels| == |h| + |f|
              && |r.value.forecast.data| == |r.value.labels|
              && |r.value.historical.data| == |h|
              && r.value.forecast.borderColor == ChartColorsFor(theme).forecast
  {
    match ForecastTrack(h, f)
    case None => None
    case Some(track) =>
      Some(CompositeChart(
        HistoricalLabels(h, format) + ForecastLabels(f, format),
        Dataset("Historical", HistoricalValues(h), "#9ca3af"),
        Dataset("Forecast (" + model + ")", track, ChartColorsFor(theme).forecast)))
  }

  /** Composition fails exactly when there is no historical point. */
  lemma CompositeDefinedIffHistory(h: seq<InterestPoint>, f: seq<ForecastPoint>, model: string, theme: string, format: DateFormatter)
    ensures Composite(h, f, model, theme, format).Some? <==> |h| >= 1
  {
  }

  /** The label axis is the historical labels followed by the forecast
      labels, in the order received, with no sorting and no deduplication. */
  lemma CompositeLabels(h: seq<InterestPoint>, f: seq<ForecastPoint>, model: string, theme: string, format: DateFormatter)
    requires |h| >= 1
    ensures var labels := Composite(h, f, model, theme, format).value.labels;
      && |labels| == |h| + |f|
      && (forall i :: 0 <= i < |h| ==> labels[i] == format(h[i].date))
      && (forall j :: 0 <= j < |f| ==> labels[|h| + j] == format(f[j].ds))
  {
  }

  /** The historical track holds exactly the historical values in order; it
      is not padded to the label count. */
  lemma HistoricalTrackUnpadded(h: seq<InterestPoint>, f: seq<ForecastPoint>, model: string, theme: string, format: DateFormatter)
    requires |h| >= 1
    ensures var c := Composite(h, f, model, theme, format).value;
      && |c.historical.data| == |h|
      && (forall i :: 0 <= i < |h| ==> c.historical.data[i] == h[i].value)
      && (|f| > 0 ==> |c.historical.data| < |c.labels|)
  {
  }

  /** The forecast track has one entry per label: nulls before the join
      index |H|-1, the last historical value at the join, then each `yhat`. */
  lemma ForecastTrackShape(h: seq<InterestPoint>, f: seq<ForecastPoint>)
    requires |h| >= 1
    ensures var t := ForecastTrack(h, f).value;
      && |t| == |h| + |f|
      && (forall i :: 0 <= i < |h| - 1 ==> t[i].None?)
      && t[|h| - 1] == Some(h[|h| - 1].value as real)
      && (forall j :: 0 <= j < |f| ==> t[|h| + j] == Some(f[j].yhat))
  {
    var t := ForecastTrack(h, f).value;
    var n := |h| - 1;
    forall j | 0 <= j < |f| ensures t[|h| + j] == Some(f[j].yhat) {
      assert t[|h| + j] == Predictions(f)[j];
    }
  }

  /** The two tracks meet at the join index: the forecast track's entry there
      is the historical track's last value. */
  lemma TracksMeetAtJoin(h: seq<InterestPoint>, f: seq<ForecastPoint>, model: string, theme: string, format: DateFormatter)
    requires |h| >= 1
    ensures var c := Composite(h, f, model, theme, format).value;
      && |c.forecast.data| == |c.labels|
      && c.forecast.data[|h| - 1] == Some(c.historical.data[|h| - 1] as real)
  {
    ForecastTrackShape(h, f);
  }

  /** With no forecast points the track is not all null: the join value stays. */
  lemma EmptyForecastKeepsJoin(h: seq<InterestPoint>)
    requires |h| >= 1
    ensures ForecastTrack(h, []) == Some(Nulls(|h| - 1) + [Some(h[|h| - 1].value as real)])
    ensures exists i :: 0 <= i < |ForecastTrack(h, []).value| && ForecastTrack(h, []).value[i].Some?
  {
    var join := Nulls(|h| - 1) + [Some(h[|h| - 1].value as real)];
    assert Predictions([]) == [];
    assert join + Predictions([]) == join;
    assert ForecastTrack(h, []).value[|h| - 1].Some?;
  }

  /** The theme picks colours only: labels and both tracks are the same under every theme. */
  lemma ThemeLeavesDataAlone(h: seq<InterestPoint>, f: seq<ForecastPoint>, model: string, keyword: string, t1: string, t2: string, format: DateFormatter)
    requires |h| >= 1
    ensures var c1, c2 := Composite(h, f, model, t1, format).value, Composite(h, f, model, t2, format).value;
      c1.labels == c2.labels && c1.historical == c2.historical && c1.forecast.data == c2.forecast.data
    ensures InterestChart(h, keyword, t1, format).labels == InterestChart(h, keyword, t2, format).labels
    ensures InterestChart(h, keyword, t1, format).dataset.data == InterestChart(h, keyword, t2, format).dataset.data
  {
  }

  /** Two weekly points and one prediction: the historical track is [10, 20]
      and the forecast track is [null, 20, 30]. */
  lemma TwoPointsOnePrediction(format: DateFormatter)
    ensures var c := Composite([InterestPoint("2024-01-01", 10), InterestPoint("2024-01-08", 20)],
                               [ForecastPoint("2024-01-15", 30.0)], "prophet", "light", format).value;
      && |c.labels| == 3
      && c.historical.data == [10, 20]
      && c.forecast.data == [None, Some(20.0), Some(30.0)]
  {
    var h := [InterestPoint("2024-01-01", 10), InterestPoint("2024-01-08", 20)];
    var f := [ForecastPoint("2024-01-15", 30.0)];
    assert Nulls(1) == [None];
    assert Predictions(f) == [Some(30.0)];
    assert HistoricalValues(h) == [10, 20];
  }

  // ---------------------------------------------------------------------------
  // The page

  datatype PageState = PageState(
    keyword: string, model: string, promotionDate: string,
    interestData: Option<HistoricalChart>, forecastData: Option<CompositeChart>,
    loading: bool, error: string)

  class ForecastPage {
    var keyword: string
    var model: string
    var promotionDate: string
    var interestData: Option<HistoricalChart>
    var forecastData: Option<CompositeChart>
    var loading: bool
    var error: string

    function State(): PageState
      reads this
    {
      PageState(keyword, model, promotionDate, interestData, forecastData, loading, error)
    }

    constructor ()
      ensures State() == PageState("iPhone", "prophet", "", None, None, false, "")
    {
      keyword, model, promotionDate := "iPhone", "prophet", "";
      interestData, forecastData := None, None;
      loading, error := false, "";
    }

    /** `handleSubmit`. `theme` is the theme when the form is submitted;
        `responses` is how `Promise.all` settles; `sent` are the requests
        issued, None when none is; `atAwait` is the state rendered while
        they are pending. */
    method HandleSubmit(theme: string, responses: FanIn, format: DateFormatter)
      returns (sent: Option<Requests>, ghost atAwait: Option<PageState>)
      modifies this
      ensures keyword == old(keyword) && model == old(model) && promotionDate == old(promotionDate)
      ensures !loading
      ensures interestData.Some? <==> forecastData.Some?
      ensures old(keyword) == "" ==>
                && sent.None? && atAwait.None?
                && error == EmptyKeywordMessage && interestData.None? && forecastData.None?
      ensures old(keyword) != "" ==>
                && sent == Some(RequestsFor(keyword, model, promotionDate))
                && atAwait == Some(PageState(keyword, model, promotionDate, None, None, true, ""))
      ensures old(keyword) != "" && responses.OneRejected? ==>
                interestData.None? && error == ErrorText(responses.error, FallbackMessage)
      ensures old(keyword) != "" && responses.BothResolved? && |responses.interest| == 0 ==>
                interestData.None? && error == FallbackMessage
      ensures old(keyword) != "" && responses.BothResolved? && |responses.interest| >= 1 ==>
                && interestData == Some(InterestChart(responses.interest, keyword, theme, format))
                && forecastData == Composite(responses.interest, responses.forecast, model, theme, format)
                && error == ""
    {
      loading := true;
      error := "";
      interestData := None;
      forecastData := None;
      if keyword == "" {
        error := EmptyKeywordMessage;
        loading := false;
        return None, None;
      }
      sent := Some(RequestsFor(keyword, model, promotionDate));
      atAwait := Some(State());
      match responses {
        case OneRejected(e) =>
          error := ErrorText(e, FallbackMessage);
        case BothResolved(h, f) =>
          var interestChart := InterestChart(h, keyword, theme, format);
          var composite := Composite(h, f, model, theme, format);
          if composite.None? {
            // the RangeError thrown by Array(-1) carries no server detail
            error := ErrorText(Error(None), FallbackMessage);
          } else {
            interestData := Some(interestChart);
            forecastData := composite;
          }
      }
      loading := false;
    }
  }
}
