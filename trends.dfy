/** The backend trend endpoints: refreshing the cached trend rows of a
    keyword, choosing and running a forecaster, and the dashboard KPIs. The
    two tables are sequences in a store object; the Google Trends fetch and
    the forecaster are inputs. */
module Trends {
  import opened Common
  import opened Text

  datatype SearchTerm = SearchTerm(id: nat, keyword: string)

  /** A row of the trend table, tied to its search term by `termId`. */
  datatype TrendRow = TrendRow(date: string, value: int, termId: nat)

  /** A fetched point: `{date, value}`. */
  datatype TrendPoint = TrendPoint(date: string, value: int)

  /** A forecast point: `{ds, yhat}`. */
  datatype ForecastRow = ForecastRow(ds: string, yhat: real)

  datatype HttpError = HttpError(status: int, detail: string)

  /** An endpoint's result: its body, or the HTTP error it raises. */
  datatype Response<T> = Ok(body: T) | Err(error: HttpError)

  /** The request body, with its defaults. */
  datatype TrendRequest = TrendRequest(
    keyword: string, timeframe: string, geo: string, model: string, promotionDates: Option<seq<string>>)

  function RequestWithDefaults(keyword: string): TrendRequest
  {
    TrendRequest(keyword, "today 5-y", "", "prophet", None)
  }

  // ---------------------------------------------------------------------------
  // The trend table

  /** The first search term with this keyword, if any. */
  function Lookup(terms: seq<SearchTerm>, keyword: string): (r: Option<SearchTerm>)
    ensures r.None? <==> forall i :: 0 <= i < |terms| ==> terms[i].keyword != keyword
    ensures r.Some? ==>
              exists i :: 0 <= i < |terms| && terms[i] == r.value && forall j :: 0 <= j < i ==> terms[j].keyword != keyword
    ensures r.Some? ==> r.value.keyword == keyword
  {
    if terms == [] then None
    else if terms[0].keyword == keyword then Some(terms[0])
    else
      var rest := Lookup(terms[1..], keyword);
      assert rest.Some? ==>
        exists i :: 1 <= i < |terms| && terms[i] == rest.value && forall j :: 1 <= j < i ==> terms[j].keyword != keyword
      by {
        if rest.Some? {
          var i :| 0 <= i < |terms[1..]| && terms[1..][i] == rest.value
                   && forall j :: 0 <= j < i ==> terms[1..][j].keyword != keyword;
          assert forall j :: 1 <= j < i + 1 ==> terms[j].keyword == terms[1..][j - 1].keyword;
        }
      }
      rest
  }

  /** The first search term with this id, if any. */
  function TermById(terms: seq<SearchTerm>, id: nat): (r: Option<SearchTerm>)
    ensures r.None? <==> forall i :: 0 <= i < |terms| ==> terms[i].id != id
    ensures r.Some? ==> r.value.id == id && r.value in terms
  {
    if terms == [] then None
    else if terms[0].id == id then Some(terms[0])
    else TermById(terms[1..], id)
  }

  /** The points stored for one term, in table order. */
  function RowsOf(data: seq<TrendRow>, id: nat): (r: seq<TrendPoint>)
    ensures |r| <= |data|
  {
    if data == [] then []
    else (if data[0].termId == id then [TrendPoint(data[0].date, data[0].value)] else []) + RowsOf(data[1..], id)
  }

  /** A point is among the term's points exactly when the table holds a row
      of that term with its date and value. */
  lemma {:induction false} RowsOfMembers(data: seq<TrendRow>, id: nat, p: TrendPoint)
    ensures p in RowsOf(data, id) <==> TrendRow(p.date, p.value, id) in data
  {
    if data != [] {
      RowsOfMembers(data[1..], id, p);
      var head := if data[0].termId == id then [TrendPoint(data[0].date, data[0].value)] else [];
      assert RowsOf(data, id) == head + RowsOf(data[1..], id);
      assert data == [data[0]] + data[1..];
    }
  }

  /** The table after `DELETE ... WHERE search_term_id = id`. */
  function Without(data: seq<TrendRow>, id: nat): (r: seq<TrendRow>)
    ensures forall i :: 0 <= i < |r| ==> r[i].termId != id && r[i] in data
  {
    if data == [] then []
    else (if data[0].termId == id then [] else [data[0]]) + Without(data[1..], id)
  }

  /** The new rows of a term, one per fetched point, in order. */
  function Attach(points: seq<TrendPoint>, id: nat): (r: seq<TrendRow>)
    ensures |r| == |points|
    ensures forall i :: 0 <= i < |r| ==> r[i] == TrendRow(points[i].date, points[i].value, id)
  {
    if points == [] then [] else [TrendRow(points[0].date, points[0].value, id)] + Attach(points[1..], id)
  }

  /** Old rows of the term deleted, the fetched points appended. */
  function Replaced(data: seq<TrendRow>, id: nat, points: seq<TrendPoint>): (r: seq<TrendRow>)
    ensures forall x :: x in r ==> (x in data && x.termId != id) || x.termId == id
    ensures forall x :: x in data && x.termId != id ==> x in r
    ensures forall x :: x in r && x.termId == id ==> TrendPoint(x.date, x.value) in points
  {
    WithoutKeepsOthers(data, id);
    AttachHolds(points, id);
    Without(data, id) + Attach(points, id)
  }

  lemma {:induction false} RowsOfAppend(a: seq<TrendRow>, b: seq<TrendRow>, id: nat)
    ensures RowsOf(a + b, id) == RowsOf(a, id) + RowsOf(b, id)
  {
    if a == [] {
      assert a + b == b;
    } else {
      var ab := a + b;
      assert ab[0] == a[0];
      assert ab[1..] == a[1..] + b;
      RowsOfAppend(a[1..], b, id);
      var head := if a[0].termId == id then [TrendPoint(a[0].date, a[0].value)] else [];
      calc {
        RowsOf(ab, id);
        head + RowsOf(a[1..] + b, id);
        head + (RowsOf(a[1..], id) + RowsOf(b, id));
        (head + RowsOf(a[1..], id)) + RowsOf(b, id);
      }
    }
  }

  lemma {:induction false} RowsOfWithout(data: seq<TrendRow>, id: nat, other: nat)
    ensures RowsOf(Without(data, id), id) == []
    ensures other != id ==> RowsOf(Without(data, id), other) == RowsOf(data, other)
  {
    if data != [] {
      RowsOfWithout(data[1..], id, other);
      var head := if data[0].termId == id then [] else [data[0]];
      RowsOfAppend(head, Without(data[1..], id), id);
      RowsOfAppend(head, Without(data[1..], id), other);
    }
  }

  lemma {:induction false} RowsOfAttach(points: seq<TrendPoint>, id: nat, other: nat)
    ensures RowsOf(Attach(points, id), id) == points
    ensures other != id ==> RowsOf(Attach(points, id), other) == []
  {
    if points != [] {
      RowsOfAttach(points[1..], id, other);
      assert Attach(points, id)[1..] == Attach(points[1..], id);
    }
  }

  /** Replacing a term's rows: afterwards it has exactly the fetched points,
      and every other term keeps exactly the rows it had. */
  lemma ReplacedRows(data: seq<TrendRow>, id: nat, points: seq<TrendPoint>, other: nat)
    ensures RowsOf(Replaced(data, id, points), id) == points
    ensures other != id ==> RowsOf(Replaced(data, id, points), other) == RowsOf(data, other)
  {
    var kept, added := Without(data, id), Attach(points, id);
    assert Replaced(data, id, points) == kept + added;
    RowsOfAppend(kept, added, id);
    RowsOfAppend(kept, added, other);
    RowsOfWithout(data, id, other);
    RowsOfAttach(points, id, other);
  }

  // ---------------------------------------------------------------------------
  // Forecaster dispatch

  datatype ForecasterKind = XGBoost | Prophet

  const HorizonWeeks: nat := 52
  const InvalidModelDetail: string := "Invalid model type specified. Choose 'prophet' or 'xgboost'."
  const ForecastErrorPrefix: string := "An error occurred during forecasting: "

  /** The model name matched after lower-casing. */
  function SelectForecaster(model: string): (r: Option<ForecasterKind>)
    ensures r == Some(XGBoost) <==> Lower(model) == "xgboost"
    ensures r == Some(Prophet) <==> Lower(model) == "prophet"
  {
    if Lower(model) == "xgboost" then Some(XGBoost)
    else if Lower(model) == "prophet" then Some(Prophet)
    else None
  }

  /** Dispatch ignores case: a name selects what its lower-cased form selects. */
  lemma SelectIgnoresCase(model: string)
    ensures SelectForecaster(model) == SelectForecaster(Lower(model))
  {
    LowerProperties(model);
  }

  lemma MixedCaseSelects()
    ensures SelectForecaster("XGBoost") == Some(XGBoost)
    ensures SelectForecaster("Prophet") == Some(Prophet)
  {
    var x, p := "XGBoost", "Prophet";
    assert forall i :: 0 <= i < |x| ==> Lower(x)[i] == "xgboost"[i];
    assert forall i :: 0 <= i < |p| ==> Lower(p)[i] == "prophet"[i];
    assert Lower(x) == "xgboost" && Lower(p) == "prophet";
  }

  /** How `train_and_forecast` ends: its rows, or the message of what it raised. */
  datatype Trained = Forecast(rows: seq<ForecastRow>) | Raised(message: string)

  /** The forecaster, called with its kind, the fetched points, the horizon
      in weeks and the promotion dates. */
  type Trainer = (ForecasterKind, seq<TrendPoint>, nat, Option<seq<string>>) -> Trained

  /** The part of `get_forecast` after the data is cached: an unknown model is
      a 400; a forecaster that raises is a 500 carrying its message. */
  function ForecastResponse(model: string, points: seq<TrendPoint>, promotionDates: Option<seq<string>>, train: Trainer)
    : (r: Response<seq<ForecastRow>>)
    ensures SelectForecaster(model).None? <==> r == Err(HttpError(400, InvalidModelDetail))
    ensures SelectForecaster(model).Some? ==>
              match train(SelectForecaster(model).value, points, HorizonWeeks, promotionDates)
              case Forecast(rows) => r == Ok(rows)
              case Raised(m) => r == Err(HttpError(500, ForecastErrorPrefix + m))
  {
    match SelectForecaster(model)
    case None => Err(HttpError(400, InvalidModelDetail))
    case Some(kind) =>
      match train(kind, points, HorizonWeeks, promotionDates)
      case Forecast(rows) => Ok(rows)
      case Raised(m) => Err(HttpError(500, ForecastErrorPrefix + m))
  }

  // ---------------------------------------------------------------------------
  // Dashboard KPIs

  datatype DashboardKpis = DashboardKpis(
    totalKeywordsTracked: nat, highestInterestKeyword: Option<string>,
    highestInterestValue: Option<int>, mostRecentPeakDate: Option<string>)

  /** The join of the trend table with the search terms, in table order; a
      row whose term is missing drops out. */
  function Joined(data: seq<TrendRow>, terms: seq<SearchTerm>): (r: seq<(TrendRow, SearchTerm)>)
    ensures |r| <= |data|
    ensures forall k :: 0 <= k < |r| ==> r[k].0 in data && TermById(terms, r[k].0.termId) == Some(r[k].1)
    ensures (forall x :: x in data ==> TermById(terms, x.termId).Some?) ==>
              |r| == |data| && forall k :: 0 <= k < |data| ==> r[k].0 == data[k]
  {
    if data == [] then []
    else
      var rest := Joined(data[1..], terms);
      match TermById(terms, data[0].termId)
      case None => rest
      case Some(t) => [(data[0], t)] + rest
  }

  /** `max(all_data, key=value)`: the index of the greatest value, the first
      such on ties. */
  function MaxIndex(rows: seq<(TrendRow, SearchTerm)>): (k: nat)
    requires |rows| > 0
    ensures k < |rows|
    ensures forall j :: 0 <= j < |rows| ==> rows[j].0.value <= rows[k].0.value
    ensures forall j :: 0 <= j < k ==> rows[j].0.value < rows[k].0.value
  {
    if |rows| == 1 then 0
    else
      var m := MaxIndex(rows[..|rows| - 1]);
      if rows[|rows| - 1].0.value > rows[m].0.value then |rows| - 1 else m
  }

  /** `get_dashboard_kpis`: the number of terms, and the keyword, value and
      date of one maximal row (all absent when there is no row). */
  function KpisOf(terms: seq<SearchTerm>, data: seq<TrendRow>): (r: DashboardKpis)
    ensures r.totalKeywordsTracked == |terms|
    ensures Joined(data, terms) == [] <==> r.highestInterestValue.None?
    ensures Joined(data, terms) == [] ==> r == DashboardKpis(|terms|, None, None, None)
    ensures Joined(data, terms) != [] ==>
              exists k :: 0 <= k < |Joined(data, terms)| &&
                var (row, term) := Joined(data, terms)[k];
                && r == DashboardKpis(|terms|, Some(term.keyword), Some(row.value), Some(row.date))
                && (forall j :: 0 <= j < |Joined(data, terms)| ==> Joined(data, terms)[j].0.value <= row.value)
                && (forall j :: 0 <= j < k ==> Joined(data, terms)[j].0.value < row.value)
  {
    var all := Joined(data, terms);
    if all == [] then DashboardKpis(|terms|, None, None, None)
    else
      var k := MaxIndex(all);
      var (row, term) := all[k];
      DashboardKpis(|terms|, Some(term.keyword), Some(row.value), Some(row.date))
  }

  /** Over valid tables every trend row takes part in the join, so the KPIs
      come from the first row of maximal value among all trend rows, with
      its own term's keyword. */
  lemma KpisOverAllRows(terms: seq<SearchTerm>, data: seq<TrendRow>, nextId: nat)
    requires ValidTables(terms, data, nextId)
    ensures data == [] ==> KpisOf(terms, data) == DashboardKpis(|terms|, None, None, None)
    ensures data != [] ==>
              exists k ::
                && 0 <= k < |data|
                && KpisOf(terms, data) == DashboardKpis(|terms|, Some(TermById(terms, data[k].termId).value.keyword),
                                                        Some(data[k].value), Some(data[k].date))
                && (forall j :: 0 <= j < |data| ==> data[j].value <= data[k].value)
                && (forall j :: 0 <= j < k ==> data[j].value < data[k].value)
  {
    var all := Joined(data, terms);
    assert |all| == |data| && forall k :: 0 <= k < |data| ==> all[k].0 == data[k];
    if data != [] {
      var k := MaxIndex(all);
      assert TermById(terms, data[k].termId) == Some(all[k].1);
    }
  }

  // ---------------------------------------------------------------------------
  // The store

  /** The tables' invariants: keywords (a unique column) and ids are unique,
      ids are below the next id to hand out, and every row belongs to a
      stored term. */
  ghost predicate ValidTables(terms: seq<SearchTerm>, data: seq<TrendRow>, nextId: nat)
  {
    && (forall i, j :: 0 <= i < j < |terms| ==> terms[i].keyword != terms[j].keyword && terms[i].id != terms[j].id)
    && (forall i :: 0 <= i < |terms| ==> terms[i].id < nextId)
    && (forall r :: r in data ==> TermById(terms, r.termId).Some?)
  }

  /** A term found by keyword is also found by its id. */
  lemma LookupHasId(terms: seq<SearchTerm>, keyword: string)
    ensures Lookup(terms, keyword).Some? ==> TermById(terms, Lookup(terms, keyword).value.id).Some?
  {
  }

  /** Creating a term for a missing keyword, with the next id, keeps the
      invariants, and the keyword then finds the new term. */
  lemma CreateKeepsValid(terms: seq<SearchTerm>, data: seq<TrendRow>, nextId: nat, keyword: string)
    requires ValidTables(terms, data, nextId) && Lookup(terms, keyword).None?
    ensures ValidTables(terms + [SearchTerm(nextId, keyword)], data, nextId + 1)
    ensures Lookup(terms + [SearchTerm(nextId, keyword)], keyword) == Some(SearchTerm(nextId, keyword))
  {
    var t := SearchTerm(nextId, keyword);
    LookupAppendNew(terms, t);
    TermByIdAppend(terms, t);
  }

  /** Replacing the rows of a stored term keeps the invariants. */
  lemma ReplaceKeepsValid(terms: seq<SearchTerm>, data: seq<TrendRow>, nextId: nat, id: nat, points: seq<TrendPoint>)
    requires ValidTables(terms, data, nextId) && TermById(terms, id).Some?
    ensures ValidTables(terms, Replaced(data, id, points), nextId)
  {
    forall r | r in Replaced(data, id, points) ensures TermById(terms, r.termId).Some? {
      if r !in data {
        assert r in Attach(points, id);
      }
    }
  }

  /** What `get_and_cache_trend_data` does to the tables, from
      (`terms0`, `data0`, `next0`) to (`terms`, `data`, `next`), for the
      lower-cased `keyword`: a failed fetch writes nothing; otherwise the
      keyword's term is created only if missing, with the next id, and its
      rows are replaced by the fetched points. */
  ghost function Refreshed(
    terms0: seq<SearchTerm>, data0: seq<TrendRow>, next0: nat,
    terms: seq<SearchTerm>, data: seq<TrendRow>, next: nat,
    keyword: string, fetched: Response<seq<TrendPoint>>): (b: bool)
    ensures b ==> terms0 <= terms && |terms| <= |terms0| + 1 && next0 <= next <= next0 + 1
    ensures b && |terms| == |terms0| + 1 ==> terms[|terms0|] == SearchTerm(next0, keyword) && Lookup(terms0, keyword).None?
    ensures b && fetched.Ok? ==> Lookup(terms, keyword).Some?
  {
    if fetched.Err? then terms == terms0 && data == data0 && next == next0
    else
      && Lookup(terms, keyword).Some?
      && (Lookup(terms0, keyword).Some? ==> terms == terms0 && next == next0)
      && (Lookup(terms0, keyword).None? ==> terms == terms0 + [SearchTerm(next0, keyword)] && next == next0 + 1)
      && data == Replaced(data0, Lookup(terms, keyword).value.id, fetched.body)
  }

  /** After a successful refresh the keyword's term holds exactly the fetched
      points and every other term keeps exactly the rows it had. */
  lemma RefreshedRows(
    terms0: seq<SearchTerm>, data0: seq<TrendRow>, next0: nat,
    terms: seq<SearchTerm>, data: seq<TrendRow>, next: nat,
    keyword: string, fetched: Response<seq<TrendPoint>>)
    requires Refreshed(terms0, data0, next0, terms, data, next, keyword, fetched) && fetched.Ok?
    ensures Lookup(terms, keyword).Some?
    ensures RowsOf(data, Lookup(terms, keyword).value.id) == fetched.body
    ensures forall other :: other != Lookup(terms, keyword).value.id ==> RowsOf(data, other) == RowsOf(data0, other)
  {
    var id := Lookup(terms, keyword).value.id;
    forall other | other != id ensures RowsOf(data, other) == RowsOf(data0, other) {
      ReplacedRows(data0, id, fetched.body, other);
    }
    ReplacedRows(data0, id, fetched.body, id);
  }

  class TrendStore {
    var terms: seq<SearchTerm>
    var data: seq<TrendRow>
    /** The id the next new term receives. */
    var nextId: nat

    ghost predicate Valid()
      reads this
    {
      ValidTables(terms, data, nextId)
    }

    constructor ()
      ensures Valid() && terms == [] && data == [] && nextId == 0
    {
      terms, data, nextId := [], [], 0;
    }

    /** `query(SearchTerm).filter(keyword == k).first()`. */
    method FindTerm(keyword: string) returns (r: Option<SearchTerm>)
      ensures r == Lookup(terms, keyword)
    {
      var i := 0;
      while i < |terms|
        invariant 0 <= i <= |terms|
        invariant Lookup(terms, keyword) == Lookup(terms[i..], keyword)
      {
        if terms[i].keyword == keyword {
          return Some(terms[i]);
        }
        assert terms[i..][1..] == terms[i + 1..];
        i := i + 1;
      }
      return None;
    }

    /** `get_and_cache_trend_data`. `fetched` is what the Google Trends fetch
        for the keyword returns or raises. The fetch comes before any write,
        so a failed fetch changes nothing. Otherwise the lower-cased keyword's
        term is created if missing and its rows are replaced by the fetched ones. */
    method CacheTrendData(keyword: string, fetched: Response<seq<TrendPoint>>) returns (r: Response<seq<TrendPoint>>)
      requires Valid()
      modifies this
      ensures Valid() && r == fetched
      ensures Refreshed(old(terms), old(data), old(nextId), terms, data, nextId, Lower(keyword), fetched)
    {
      var key := Lower(keyword);
      var term := FindTerm(key);
      if fetched.Err? {
        return fetched;
      }
      if term.None? {
        CreateKeepsValid(terms, data, nextId, key);
        terms := terms + [SearchTerm(nextId, key)];
        term := Some(SearchTerm(nextId, key));
        nextId := nextId + 1;
      }
      LookupHasId(terms, key);
      ReplaceKeepsValid(terms, data, nextId, term.value.id, fetched.body);
      data := Replaced(data, term.value.id, fetched.body);
      return fetched;
    }

    /** `get_interest_data`: the refreshed points are also the response. */
    method GetInterestData(request: TrendRequest, fetched: Response<seq<TrendPoint>>)
      returns (r: Response<seq<TrendPoint>>)
      requires Valid()
      modifies this
      ensures Valid() && r == fetched
      ensures Refreshed(old(terms), old(data), old(nextId), terms, data, nextId, Lower(request.keyword), fetched)
      ensures fetched.Err? ==> terms == old(terms) && data == old(data) && nextId == old(nextId)
      ensures fetched.Ok? ==>
                && Lookup(terms, Lower(request.keyword)).Some?
                && RowsOf(data, Lookup(terms, Lower(request.keyword)).value.id) == r.body
                && forall other :: other != Lookup(terms, Lower(request.keyword)).value.id ==>
                     RowsOf(data, other) == RowsOf(old(data), other)
    {
      r := CacheTrendData(request.keyword, fetched);
      if r.Ok? {
        RefreshedRows(old(terms), old(data), old(nextId), terms, data, nextId, Lower(request.keyword), fetched);
      }
    }

    /** `get_forecast`: the data is fetched and cached first, so an unknown
        model is rejected only after the cache has been refreshed. */
    method GetForecast(request: TrendRequest, fetched: Response<seq<TrendPoint>>, train: Trainer)
      returns (r: Response<seq<ForecastRow>>)
      requires Valid()
      modifies this
      ensures Valid()
      ensures Refreshed(old(terms), old(data), old(nextId), terms, data, nextId, Lower(request.keyword), fetched)
      ensures fetched.Err? ==> r == Err(fetched.error) && terms == old(terms) && data == old(data) && nextId == old(nextId)
      ensures fetched.Ok? ==>
                && r == ForecastResponse(request.model, fetched.body, request.promotionDates, train)
                && Lookup(terms, Lower(request.keyword)).Some?
                && RowsOf(data, Lookup(terms, Lower(request.keyword)).value.id) == fetched.body
                && forall other :: other != Lookup(terms, Lower(request.keyword)).value.id ==>
                     RowsOf(data, other) == RowsOf(old(data), other)
    {
      var df := CacheTrendData(request.keyword, fetched);
      if df.Err? {
        return Err(df.error);
      }
      RefreshedRows(old(terms), old(data), old(nextId), terms, data, nextId, Lower(request.keyword), fetched);
      r := ForecastResponse(request.model, df.body, request.promotionDates, train);
    }

    /** `get_dashboard_kpis`. */
    function Kpis(): (r: DashboardKpis)
      reads this
      ensures r == KpisOf(terms, data)
    {
      KpisOf(terms, data)
    }
  }

  lemma LookupAppendNew(terms: seq<SearchTerm>, t: SearchTerm)
    requires Lookup(terms, t.keyword).None?
    ensures Lookup(terms + [t], t.keyword) == Some(t)
  {
    if terms != [] {
      assert (terms + [t])[1..] == terms[1..] + [t];
      LookupAppendNew(terms[1..], t);
    }
  }

  lemma TermByIdAppend(terms: seq<SearchTerm>, t: SearchTerm)
    ensures forall id :: TermById(terms, id).Some? ==> TermById(terms + [t], id) == TermById(terms, id)
    ensures TermById(terms + [t], t.id).Some?
  {
    if terms != [] {
      assert (terms + [t])[1..] == terms[1..] + [t];
      TermByIdAppend(terms[1..], t);
    }
  }

  lemma WithoutKeepsOthers(data: seq<TrendRow>, id: nat)
    ensures forall x :: x in data && x.termId != id ==> x in Without(data, id)
  {
    if data != [] {
      WithoutKeepsOthers(data[1..], id);
    }
  }

  lemma AttachHolds(points: seq<TrendPoint>, id: nat)
    ensures forall x :: x in Attach(points, id) ==> x.termId == id && TrendPoint(x.date, x.value) in points
  {
    var r := Attach(points, id);
    forall x | x in r ensures x.termId == id && TrendPoint(x.date, x.value) in points {
      var i :| 0 <= i < |r| && r[i] == x;
      assert points[i] == TrendPoint(x.date, x.value);
    }
  }

  /** A request that names no model is served by Prophet, the default of
      the request schema. */
  lemma DefaultModelIsProphet(keyword: string)
    ensures RequestWithDefaults(keyword).promotionDates.None?
    ensures SelectForecaster(RequestWithDefaults(keyword).model) == Some(Prophet)
  {
    var m := "prophet";
    assert forall i :: 0 <= i < |m| ==> Lower(m)[i] == m[i];
    assert Lower(m) == m;
  }
}
