/** The dashboard page: the KPI fetch, the greeting name and the four KPI
    cards with their defaults for missing values. */
module Dashboard {
  import opened Common
  import opened Text
  import opened Auth
  import opened Identity

  /** The KPI response body; every field may be null. */
  datatype Kpis = Kpis(
    totalKeywordsTracked: Option<int>, highestInterestKeyword: Option<string>,
    highestInterestValue: Option<int>, mostRecentPeakDate: Option<string>)

  datatype CardValue = Number(n: int) | Label(text: string)

  datatype KpiCard = KpiCard(title: string, value: CardValue, note: Option<string>)

  const LoadFailedMessage: string := "Failed to load dashboard data. Please try again later."

  /** `kpis?.field`: absent when the body itself is null. */
  function Total(kpis: Option<Kpis>): Option<int> { if kpis.Some? then kpis.value.totalKeywordsTracked else None }
  function Keyword(kpis: Option<Kpis>): Option<string> { if kpis.Some? then kpis.value.highestInterestKeyword else None }
  function Value(kpis: Option<Kpis>): Option<int> { if kpis.Some? then kpis.value.highestInterestValue else None }
  function PeakDate(kpis: Option<Kpis>): Option<string> { if kpis.Some? then kpis.value.mostRecentPeakDate else None }

  /** `kpiData`: the four cards, in their fixed order. `??` replaces only a
      missing value, while the peak date falls back on any falsy value.
      `format` is `toLocaleDateString`. */
  function KpiCards(kpis: Option<Kpis>, format: string -> string): (cards: seq<KpiCard>)
    ensures |cards| == 4
    ensures cards[0].title == "Total Keywords Tracked" && cards[1].title == "Highest Interest Term"
    ensures cards[2].title == "Most Recent Peak" && cards[3].title == "Active Users"
  {
    [ KpiCard("Total Keywords Tracked",
              Number(if Total(kpis).Some? then Total(kpis).value else 0), None),
      KpiCard("Highest Interest Term",
              Label(if Keyword(kpis).Some? then Keyword(kpis).value else "N/A"),
              Some("Value: " + (if Value(kpis).Some? then IntToString(Value(kpis).value) else "N/A"))),
      KpiCard("Most Recent Peak",
              Label(if Truthy(PeakDate(kpis)) then format(PeakDate(kpis).value) else "N/A"), None),
      KpiCard("Active Users", Number(1), Some("Feature coming soon")) ]
  }

  /** Each card shows its field as reported when the field is present.
      `??` replaces only a missing (null) field, so a reported 0 or an empty
      keyword is shown as is; the peak date instead falls back to 'N/A' for
      any falsy date, the empty string included. "Active Users" is always 1. */
  lemma KpiCardsShape(kpis: Option<Kpis>, format: string -> string)
    ensures var cards := KpiCards(kpis, format);
      && (Total(kpis).Some? ==> cards[0].value == Number(Total(kpis).value))
      && (Total(kpis).None? ==> cards[0].value == Number(0))
      && (Keyword(kpis).Some? ==> cards[1].value == Label(Keyword(kpis).value))
      && (Keyword(kpis).None? ==> cards[1].value == Label("N/A"))
      && (Value(kpis).Some? ==> cards[1].note == Some("Value: " + IntToString(Value(kpis).value)))
      && (Value(kpis).None? ==> cards[1].note == Some("Value: N/A"))
      && (Truthy(PeakDate(kpis)) ==> cards[2].value == Label(format(PeakDate(kpis).value)))
      && (!Truthy(PeakDate(kpis)) ==> cards[2].value == Label("N/A"))
      && (PeakDate(kpis) == Some("") ==> cards[2].value == Label("N/A"))
      && (Keyword(kpis) == Some("") ==> cards[1].value == Label(""))
      && cards[0].note.None? && cards[2].note.None?
      && cards[3] == KpiCard("Active Users", Number(1), Some("Feature coming soon"))
  {
    var note, expected := "Value: " + "N/A", "Value: N/A";
    assert forall i :: 0 <= i < |expected| ==> note[i] == expected[i];
    assert note == expected;
    if Value(kpis).None? {
      assert KpiCards(kpis, format)[1].note == Some(note);
    }
  }

  /** With nothing tracked yet (all fields null) every card shows its default. */
  lemma EmptyKpisDefaults(format: string -> string)
    ensures KpiCards(Some(Kpis(None, None, None, None)), format) ==
      [ KpiCard("Total Keywords Tracked", Number(0), None),
        KpiCard("Highest Interest Term", Label("N/A"), Some("Value: N/A")),
        KpiCard("Most Recent Peak", Label("N/A"), None),
        KpiCard("Active Users", Number(1), Some("Feature coming soon")) ]
  {
    var note, expected := "Value: " + "N/A", "Value: N/A";
    assert forall i :: 0 <= i < |expected| ==> note[i] == expected[i];
    assert note == expected;
    var cards := KpiCards(Some(Kpis(None, None, None, None)), format);
    assert cards[1] == KpiCard("Highest Interest Term", Label("N/A"), Some(expected));
  }

  /** The note under the highest-interest card reads back as the reported value. */
  lemma ValueNoteReadsBack(kpis: Kpis, format: string -> string)
    requires kpis.highestInterestValue.Some?
    ensures var note := KpiCards(Some(kpis), format)[1].note.value;
      note[..7] == "Value: " && ParseInt(note[7..]) == kpis.highestInterestValue
  {
    var note := KpiCards(Some(kpis), format)[1].note.value;
    assert note[7..] == IntToString(kpis.highestInterestValue.value);
    IntRoundTrip(kpis.highestInterestValue.value);
  }

  datatype View = LoadingView | ErrorView(message: string) | Content(userName: string, cards: seq<KpiCard>)

  datatype PageState = PageState(kpis: Option<Kpis>, loading: bool, error: string)

  /** What the page renders: loading first, then the error, then the cards. */
  function Render(s: PageState, user: Option<Claims>, format: string -> string): (v: View)
    ensures s.loading ==> v == LoadingView
    ensures !s.loading && s.error != "" ==> v == ErrorView(s.error)
    ensures !s.loading && s.error == "" ==> v == Content(UserName(user), KpiCards(s.kpis, format))
    ensures v.Content? ==> |v.cards| == 4
  {
    if s.loading then LoadingView
    else if s.error != "" then ErrorView(s.error)
    else Content(UserName(user), KpiCards(s.kpis, format))
  }

  class DashboardPage {
    var kpis: Option<Kpis>
    var loading: bool
    var error: string

    function State(): PageState
      reads this
    {
      PageState(kpis, loading, error)
    }

    constructor ()
      ensures State() == PageState(None, true, "")
    {
      kpis, loading, error := None, true, "";
    }

    /** `fetchKpis`, run once on mount; `response` is how the KPI request settles. */
    method FetchKpis(response: Outcome<Option<Kpis>>)
      modifies this
      ensures !loading
      ensures response.Resolved? ==> kpis == response.value && error == old(error)
      ensures response.Rejected? ==> kpis == old(kpis) && error == LoadFailedMessage
    {
      match response {
        case Resolved(data) => kpis := data;
        case Rejected(_) => error := LoadFailedMessage;
      }
      loading := false;
    }
  }

  /** From the freshly mounted page, a failed fetch shows the fixed error and
      a successful one shows the four cards. */
  method MountAndFetch(response: Outcome<Option<Kpis>>, user: Option<Claims>, format: string -> string)
    returns (v: View)
    ensures response.Rejected? ==> v == ErrorView(LoadFailedMessage)
    ensures response.Resolved? ==> v == Content(UserName(user), KpiCards(response.value, format))
  {
    var page := new DashboardPage();
    page.FetchKpis(response);
    v := Render(page.State(), user, format);
  }
}
