/** The keyword-analysis page: its submit handler around the related-queries
    request, and the query tables that render the top and rising rankings. */
module KeywordAnalysis {
  import opened Common
  import opened Text
  import ProgressBar

  datatype RelatedQuery = RelatedQuery(query: string, value: int)

  /** The response body; either list may be missing. */
  datatype RelatedQueries = RelatedQueries(top: Option<seq<RelatedQuery>>, rising: Option<seq<RelatedQuery>>)

  const EmptyKeywordMessage: string := "Please enter a keyword."
  const FallbackMessage: string := "An unexpected error occurred. Please try again."

  /** The page state: `keyword`, `relatedQueries`, `loading`, `error`. */
  datatype PageState = PageState(keyword: string, relatedQueries: Option<RelatedQueries>, loading: bool, error: string)

  /** The text beside a bar: the raw value for `top`, the value and '%' otherwise. */
  function ValueText(value: int, kind: string): (t: string)
    ensures kind == "top" ==> t == IntToString(value)
    ensures kind != "top" ==> t == IntToString(value) + "%"
  {
    if kind == "top" then IntToString(value) else IntToString(value) + "%"
  }

  /** One rendered list item: the query chip, whether the rising icon shows,
      the value text and the bar's percentage. */
  datatype Row = Row(query: string, risingIcon: bool, valueText: string, barPercentage: real)

  datatype TableView = NoData(message: string) | Rows(rows: seq<Row>)

  /** One list item: the query, the rising icon only for `rising`, and the
      bar at the value for `top`, at value/50 for any other type. */
  function RowFor(item: RelatedQuery, kind: string): (r: Row)
    ensures r.query == item.query
    ensures r.risingIcon <==> kind == "rising"
    ensures kind == "top" ==> r.barPercentage == item.value as real && r.valueText == IntToString(item.value)
    ensures kind != "top" ==> r.barPercentage * 50.0 == item.value as real && r.valueText == IntToString(item.value) + "%"
  {
    Row(item.query, kind == "rising", ValueText(item.value, kind), ProgressBar.Percentage(item.value as real, Some(kind)))
  }

  /** `QueryTable`: a missing or empty list renders `message(title)`,
      otherwise one row per item in order. `message` is the empty-table
      text: `EmptyMessage` as the page writes it, `IntendedEmptyMessage`
      as corrected. */
  function QueryTable(title: string, data: Option<seq<RelatedQuery>>, kind: string, message: string -> string): (v: TableView)
    ensures v.NoData? <==> data.None? || data.value == []
    ensures v.NoData? ==> v.message == message(title)
    ensures v.Rows? ==> |v.rows| == |data.value| && forall i :: 0 <= i < |v.rows| ==> v.rows[i] == RowFor(data.value[i], kind)
  {
    if data.Some? && |data.value| > 0 then
      Rows(seq(|data.value|, i requires 0 <= i < |data.value| => RowFor(data.value[i], kind)))
    else NoData(message(title))
  }

  /** The message of an empty table, as written: `No ${title.toLowerCase()} queries found.` */
  function EmptyMessage(title: string): (m: string)
    ensures |m| == |title| + 18
    ensures m[..3] == "No " && m[3..3 + |title|] == Lower(title)
    ensures m[3 + |title|..] == " queries found."
  {
    LowerProperties(title);
    "No " + Lower(title) + " queries found."
  }

  /** As written, the empty rising table repeats "queries": its title already
      ends in "Queries" and the message appends " queries found." again. */
  lemma EmptyRisingMessage()
    ensures EmptyMessage("Rising Related Queries") == "No rising related queries queries found."
  {
    var m := EmptyMessage("Rising Related Queries");
    RisingTitleLower();
    assert m == m[..3] + m[3..25] + m[25..];
    assert m == "No " + "rising related queries" + " queries found.";
    RisingWrittenText();
  }

  lemma RisingWrittenText()
    ensures "No " + "rising related queries" + " queries found." == "No rising related queries queries found."
  {
    var message, expected := "No " + "rising related queries" + " queries found.", "No rising related queries queries found.";
    assert forall i :: 0 <= i < |message| ==> message[i] == expected[i];
  }

  lemma RisingTitleLower()
    ensures Lower("Rising Related Queries") == "rising related queries"
  {
    var title, lower := "Rising Related Queries", "rising related queries";
    assert forall i :: 0 <= i < |title| ==> Lower(title)[i] == lower[i];
  }

  /** The message an empty table evidently means: the lower-cased title,
      which already names the queries, followed by " found.". */
  function IntendedEmptyMessage(title: string): (m: string)
    ensures |m| == |title| + 10
    ensures m[..3] == "No " && m[3..3 + |title|] == Lower(title)
    ensures m[3 + |title|..] == " found."
  {
    LowerProperties(title);
    "No " + Lower(title) + " found."
  }

  /** For every title that ends in "Queries", as both of the page's titles
      do, the message as written says "queries queries", and the corrected
      one ends in "queries found." with the word once. */
  lemma {:induction false} DoubledWordForQueriesTitles(title: string)
    requires |title| >= 7 && title[|title| - 7..] == "Queries"
    ensures EmptyMessage(title)[|title| - 4..|title| + 11] == "queries queries"
    ensures IntendedEmptyMessage(title)[|title| - 4..] == "queries found."
  {
    var n := |title|;
    var tail := Lower(title)[n - 7..];
    assert forall i :: 0 <= i < 7 ==> tail[i] == LowerChar(title[n - 7 + i]);
    assert forall i :: 0 <= i < 7 ==> title[n - 7 + i] == "Queries"[i];
    assert tail == "queries";
    var written, intended := EmptyMessage(title), IntendedEmptyMessage(title);
    assert written[n - 4..n + 3] == tail;
    assert written[n + 3..] == " queries found.";
    assert written[n + 3..n + 11] == written[n + 3..][..8] == " queries";
    assert written[n - 4..n + 11] == written[n - 4..n + 3] + written[n + 3..n + 11];
    assert intended[n - 4..n + 3] == tail;
    assert intended[n - 4..] == intended[n - 4..n + 3] + intended[n + 3..];
  }

  /** The table is empty exactly when the list is missing or empty; otherwise
      row `i` shows item `i`, and the value text reads back as the item's value. */
  lemma QueryTableRows(title: string, data: Option<seq<RelatedQuery>>, kind: string, message: string -> string)
    ensures QueryTable(title, data, kind, message).Rows? ==>
              var rows := QueryTable(title, data, kind, message).rows;
              |rows| == |data.value| &&
              forall i :: 0 <= i < |rows| ==>
                rows[i].query == data.value[i].query &&
                ParseInt(rows[i].valueText[..|IntToString(data.value[i].value)|]) == Some(data.value[i].value)
  {
    if QueryTable(title, data, kind, message).Rows? {
      var rows := QueryTable(title, data, kind, message).rows;
      forall i | 0 <= i < |rows|
        ensures ParseInt(rows[i].valueText[..|IntToString(data.value[i].value)|]) == Some(data.value[i].value)
      {
        var s := IntToString(data.value[i].value);
        assert rows[i].valueText[..|s|] == s;
        IntRoundTrip(data.value[i].value);
      }
    }
  }

  /** The page renders the two tables from the response, titled as on
      screen: the top list as `top`, the rising list as `rising`. `message`
      is the empty-table text: the page passes `EmptyMessage`. */
  function Tables(r: RelatedQueries, message: string -> string): (t: (TableView, TableView))
    ensures t.0.NoData? <==> r.top.None? || r.top.value == []
    ensures t.1.NoData? <==> r.rising.None? || r.rising.value == []
    ensures t.0.NoData? ==> t.0.message == message("Top Related Queries")
    ensures t.1.NoData? ==> t.1.message == message("Rising Related Queries")
    ensures t.0.Rows? ==> |t.0.rows| == |r.top.value| && forall i :: 0 <= i < |t.0.rows| ==> !t.0.rows[i].risingIcon && t.0.rows[i].query == r.top.value[i].query
    ensures t.1.Rows? ==> |t.1.rows| == |r.rising.value| && forall i :: 0 <= i < |t.1.rows| ==> t.1.rows[i].risingIcon && t.1.rows[i].query == r.rising.value[i].query
  {
    (QueryTable("Top Related Queries", r.top, "top", message),
     QueryTable("Rising Related Queries", r.rising, "rising", message))
  }

  /** As written, an empty rising list renders the doubled message. */
  lemma AsWrittenEmptyRisingTable(top: Option<seq<RelatedQuery>>)
    ensures Tables(RelatedQueries(top, Some([])), EmptyMessage).1 == NoData("No rising related queries queries found.")
  {
    EmptyRisingMessage();
  }

  /** With the corrected message an empty rising list reads
      "No rising related queries found.". */
  lemma IntendedEmptyRisingMessage(top: Option<seq<RelatedQuery>>)
    ensures Tables(RelatedQueries(top, Some([])), IntendedEmptyMessage).1 == NoData("No rising related queries found.")
  {
    IntendedRisingText();
  }

  lemma IntendedRisingText()
    ensures IntendedEmptyMessage("Rising Related Queries") == "No rising related queries found."
  {
    var m := IntendedEmptyMessage("Rising Related Queries");
    RisingTitleLower();
    assert m == m[..3] + m[3..25] + m[25..];
    assert m == "No " + "rising related queries" + " found.";
    RisingIntendedText();
  }

  lemma RisingIntendedText()
    ensures "No " + "rising related queries" + " found." == "No rising related queries found."
  {
    var message, expected := "No " + "rising related queries" + " found.", "No rising related queries found.";
    assert forall i :: 0 <= i < |message| ==> message[i] == expected[i];
  }


  class KeywordAnalysisPage {
    var keyword: string
    var relatedQueries: Option<RelatedQueries>
    var loading: bool
    var error: string

    function State(): PageState
      reads this
    {
      PageState(keyword, relatedQueries, loading, error)
    }

    /** The analysis grid: shown once a response is stored, with the two
        tables rendered from it as the page writes them. */
    function Analysis(): (v: Option<(TableView, TableView)>)
      reads this
      ensures v.Some? <==> relatedQueries.Some?
      ensures v.Some? ==> v.value == Tables(relatedQueries.value, EmptyMessage)
    {
      if relatedQueries.Some? then Some(Tables(relatedQueries.value, EmptyMessage)) else None
    }

    constructor ()
      ensures State() == PageState("meal prep", None, false, "")
    {
      keyword := "meal prep";
      relatedQueries := None;
      loading := false;
      error := "";
    }

    /** `handleSubmit`. `response` is how the related-queries request
        settles; `sent` is the keyword posted, None when no request is made;
        `atAwait` is the state rendered while the request is pending. */
    method HandleSubmit(response: Outcome<RelatedQueries>)
      returns (sent: Option<string>, ghost atAwait: Option<PageState>)
      modifies this
      ensures keyword == old(keyword) && !loading
      ensures old(keyword) == "" ==>
                sent.None? && atAwait.None? && error == EmptyKeywordMessage && relatedQueries.None?
      ensures old(keyword) != "" ==>
                sent == Some(old(keyword)) && atAwait == Some(PageState(old(keyword), None, true, ""))
      ensures old(keyword) != "" && response.Resolved? ==>
                relatedQueries == Some(response.value) && error == ""
      ensures old(keyword) != "" && response.Rejected? ==>
                relatedQueries.None? && error == ErrorText(response.error, FallbackMessage)
    {
      loading := true;
      error := "";
      relatedQueries := None;
      if keyword == "" {
        error := EmptyKeywordMessage;
        loading := false;
        return None, None;
      }
      sent := Some(keyword);
      atAwait := Some(State());
      match response {
        case Resolved(data) =>
          relatedQueries := Some(data);
        case Rejected(e) =>
          error := ErrorText(e, FallbackMessage);
      }
      loading := false;
    }
  }
}
