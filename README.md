# DemandIQ core in Dafny

DemandIQ is a market-demand dashboard. A React front end signs users in with a
JWT, shows dashboard KPIs, analyses related Google Trends queries, and charts
historical interest next to a 52-week forecast. A FastAPI back end fetches
Google Trends data, caches it in two SQL tables (search terms and trend rows),
runs a Prophet or XGBoost forecaster, and reduces the cached rows to the
dashboard KPIs.

This project models the decision logic of those parts and proves properties
about it:

- the session context: restoring the session from storage at start-up,
  `login`, `register` and `logout`;
- the request interceptor that attaches `Authorization: Bearer <token>`;
- the submit handlers of the forecast, keyword-analysis, sign-in and sign-up
  pages, and the dashboard's KPI fetch;
- how the forecast page builds its two charts and picks its palette;
- the query tables and the progress bar;
- the profile menu;
- the back end's cache refresh, forecaster dispatch with its error mapping,
  and the KPI reduction.

Each source file maps to one module:

| module | file |
|---|---|
| `Common` | shared by all modules: `Option`, settled promises (`Outcome`), the `detail \|\| fallback` error text |
| `Text` | shared by all modules: ASCII case mapping, `split('@')[0]`, integer rendering with its parse-back |
| `Auth` | `frontend/src/context/AuthContext.jsx` |
| `Api` | `frontend/src/services/api.js` |
| `Identity` | the `userName` expression of DashboardPage.jsx and ProfileDropdown.jsx |
| `ProgressBar` | `frontend/src/components/ProgressBar.jsx` |
| `KeywordAnalysis` | `frontend/src/pages/KeywordAnalysisPage.jsx` |
| `ForecastPage` | `frontend/src/pages/ForecastPage.jsx` |
| `Dashboard` | `frontend/src/pages/DashboardPage.jsx` |
| `ProfileDropdown` | `frontend/src/components/ProfileDropdown.jsx` |
| `AuthPages` | `frontend/src/pages/RegisterPage.jsx`, `frontend/src/pages/LoginPage.jsx` |
| `Trends` | `backend/src/api/trends.py` |

State that the source updates in place is modelled as classes:

- the auth provider;
- the shared `localStorage`, a `Storage` object that the provider and the
  interceptor both hold;
- the page components;
- the menu;
- the two tables, held in a `TrendStore`.

Each state-changing method is specified by a pure function of the old state
and its inputs, such as `Auth.Restored`, `Auth.LoginStep` or
`Trends.Replaced`. The properties are proved as lemmas about those functions.

An `async` handler becomes one method. The results it awaits are inputs:

- an `Outcome` for one request;
- a `FanIn` for `Promise.all`;
- a `Response` for the Google Trends fetch.

A ghost out-parameter `atAwait` records the state rendered while the request
is pending.

Other foreign calls are also parameters:

- `jwt_decode` is a partial function to claims (`Decoder`);
- `Date.now()` is an integer in milliseconds;
- `toLocaleDateString` is an uninterpreted `string -> string`;
- `train_and_forecast` is a `Trainer` that returns rows or the message of
  what it raised.

### Where the code departs from the intended behaviour

The intended behaviour is what the application's design promises. A progress
bar fills from 0 to 100%, and the forecast chart continues the historical
line. Login leaves a consistent session, an expired token does not sign
anyone in, and a page shows the result of its latest request. The model
follows the code in each case below.

- The progress bar does not clamp. A rising value above 5000 fills more than
  100% and a negative one is negative (`ProgressBar.RisingUnclamped`).
- With no historical point, `Array(interestRes.data.length - 1)` throws a
  RangeError. The forecast page then shows its fallback message and no chart
  (`ForecastPage.CompositeDefinedIffHistory`, `ForecastPage.ForecastPage.HandleSubmit`).
- `login` is not atomic. The token is stored before it is decoded, so a token
  that does not decode stays stored with no user (`Auth.LoginNotAtomic`).
- Expiry is checked only when the session is restored at start-up, not when
  the token is read later (`Auth.LoginThenRestoreAfterExpiry`).
- Nothing guards against a stale response. Each handler is modelled as one
  uninterrupted run from submit to settlement.
- The historical track of the composite chart is not padded to the length of
  the labels; it stops after the last historical point
  (`ForecastPage.HistoricalTrackUnpadded`).
- With no forecast point the forecast track is not empty: it still holds the
  last historical value at the join (`ForecastPage.EmptyForecastKeepsJoin`).

## Model

| member | source | states |
|---|---|---|
| Common.ErrorText | frontend/src/pages/LoginPage.jsx:21 | `err.response?.data?.detail \|\| fallback`: a non-empty detail is shown, otherwise the fallback; a non-empty fallback gives non-empty text |
| Text.Lower | backend/src/api/trends.py:15 | same length as the input, each character lower-cased (ASCII) |
| Text.LowerProperties | backend/src/api/trends.py:15 | lower-casing keeps the length, leaves no upper-case letter and is idempotent |
| Text.BeforeFirst | frontend/src/pages/DashboardPage.jsx:36 | `split(c)[0]`: a prefix of the input without `c`, followed by `c` in the input unless `c` does not occur, in which case it is the whole input |
| Text.IntToString | frontend/src/pages/DashboardPage.jsx:43 | a template literal's rendering of an integer: never empty, and it starts with '-' exactly when the integer is negative |
| Text.NatRoundTrip | frontend/src/pages/DashboardPage.jsx:43 | rendering a natural number as decimal digits and parsing it back gives the number |
| Text.IntRoundTrip | frontend/src/pages/DashboardPage.jsx:43 | rendering an integer as in a template literal and parsing it back gives the integer |
| Auth.StoredToken | frontend/src/context/AuthContext.jsx:13 | `getItem('token')` is the stored value, or null exactly when the key is absent |
| Auth.Unexpired | frontend/src/context/AuthContext.jsx:17 | claims without `exp` are never unexpired; with `exp` they are unexpired exactly when `now < exp * 1000` |
| Auth.Restored | frontend/src/context/AuthContext.jsx:11-28 | loading ends; only the token entry of storage can change, and only by removal; the user changes only to the claims decoded from a truthy stored token that are unexpired at `now` |
| Auth.RestoreConsistent | frontend/src/context/AuthContext.jsx:11-28 | after the start-up restore there is a user exactly when a truthy token is stored, and the user is that token's claims |
| Auth.RestoreAgainstClock | frontend/src/context/AuthContext.jsx:17-21 | a decodable token is kept, and its claims become the user, exactly when `now < exp * 1000` |
| Auth.RestoreUndecodable | frontend/src/context/AuthContext.jsx:23-26 | a token that fails to decode is removed and the user is left unchanged |
| Auth.RestoreWithoutToken | frontend/src/context/AuthContext.jsx:13-14 | with no token or an empty token, only `loading` changes |
| Auth.LoginStep | frontend/src/context/AuthContext.jsx:30-44 | a failed token request changes nothing and is rethrown; otherwise the token is stored, and then either its claims become the user or the decode error is thrown with the user unchanged; no other storage key changes |
| Auth.LoginSuccessConsistent | frontend/src/context/AuthContext.jsx:36-43 | a login whose token decodes succeeds and leaves session and storage consistent |
| Auth.LoginNotAtomic | frontend/src/context/AuthContext.jsx:41-43 | a token that does not decode stays stored with no user, and the session is no longer consistent with storage |
| Auth.LoggedOut | frontend/src/context/AuthContext.jsx:50-53 | the token is removed and the user cleared; other storage keys and `loading` are kept |
| Auth.LogoutIdempotent | frontend/src/context/AuthContext.jsx:50-53 | logging out twice equals logging out once, and it always leaves a consistent session |
| Auth.LoginThenRestoreAfterExpiry | frontend/src/context/AuthContext.jsx:17-20 | a token stored at login and restored after its expiry is purged and gives no user |
| Auth.RegisterStep | frontend/src/context/AuthContext.jsx:46-48 | `register` fulfils exactly when the request does, and rethrows its error otherwise |
| Auth.AuthProvider.constructor | frontend/src/context/AuthContext.jsx:8-9 | the provider starts with no user and loading, over the given storage |
| Auth.AuthProvider.RendersChildren | frontend/src/context/AuthContext.jsx:57 | children are rendered exactly when loading has ended |
| Auth.AuthProvider.Restore | frontend/src/context/AuthContext.jsx:11-28 | the new provider state and storage are `Restored` of the old ones |
| Auth.AuthProvider.Login | frontend/src/context/AuthContext.jsx:30-44 | the new state and the completion are `LoginStep` of the old state |
| Auth.AuthProvider.Register | frontend/src/context/AuthContext.jsx:46-48 | the completion is `RegisterStep`, and nothing changes |
| Auth.AuthProvider.Logout | frontend/src/context/AuthContext.jsx:50-53 | the new state is `LoggedOut` of the old one |
| Api.BearerHeader | frontend/src/services/api.js:13-19 | a truthy token sets `Authorization` to exactly `Bearer <token>`; an absent or empty one adds nothing; no other header changes |
| Api.WithBearer | frontend/src/services/api.js:15-18 | the header keys are the old keys plus `Authorization` exactly when the token is truthy, and then it holds `Bearer <token>` |
| Api.OnRequest | frontend/src/services/api.js:14-20 | the same config comes back, its headers set from the token stored at request time |
| Api.OnRequestError | frontend/src/services/api.js:21-23 | a request-setup error is passed on as a rejection carrying the same error |
| Api.NextRequestAfterLogout | frontend/src/services/api.js:15-18 | after logout the next request carries no bearer header of its own |
| Api.NextRequestAfterLogin | frontend/src/services/api.js:15-18 | after the token request succeeds the next request carries `Bearer <token>`, even if decoding failed |
| Api.LogoutThenRequest | frontend/src/services/api.js:14-20 | with storage shared between the provider and the interceptor, a request after logout goes out with its headers unchanged |
| Identity.UserName | frontend/src/pages/DashboardPage.jsx:36 | 'User' without a truthy subject; otherwise the part of the subject before its first '@', or all of it when there is none |
| Identity.UserNameOfAddress | frontend/src/components/ProfileDropdown.jsx:14 | the name of `alice@example.com` is `alice` |
| ProgressBar.TypeOrDefault | frontend/src/components/ProgressBar.jsx:5 | an omitted type is `top` |
| ProgressBar.Percentage | frontend/src/components/ProgressBar.jsx:6 | for `top` (or an omitted type) the percentage is the value; for every other type percentage × 5000 = value × 100 |
| ProgressBar.PercentageByType | frontend/src/components/ProgressBar.jsx:6 | for `top` the value is the percentage; for every other type it is the value divided by 50 |
| ProgressBar.RisingUnclamped | frontend/src/components/ProgressBar.jsx:6 | 2500 gives 50, 10000 gives 200 and -100 gives -2: nothing is clamped |
| ProgressBar.RisingMonotone | frontend/src/components/ProgressBar.jsx:6 | on the rising scale a larger value never gets a shorter bar |
| ProgressBar.TopIdempotent | frontend/src/components/ProgressBar.jsx:6 | any computed percentage, of any type, is shown unchanged when read back as a `top` value |
| ProgressBar.Variants | frontend/src/components/ProgressBar.jsx:8-11 | the bar animates from width 0 to the percentage followed by '%' |
| KeywordAnalysis.ValueText | frontend/src/pages/KeywordAnalysisPage.jsx:70 | the raw value for `top`; for every other type the value followed by '%' |
| KeywordAnalysis.RowFor | frontend/src/pages/KeywordAnalysisPage.jsx:67-71 | the chip shows the query; the rising icon shows exactly for `rising`; for `top` the bar is the value and the text the raw value, otherwise the bar is value/50 and the text ends in '%' |
| KeywordAnalysis.QueryTable | frontend/src/pages/KeywordAnalysisPage.jsx:38-78 | the empty-table message, from the given message function, shows exactly when the list is missing or empty; otherwise row `i` is `RowFor` of item `i`, one row per item |
| KeywordAnalysis.EmptyMessage | frontend/src/pages/KeywordAnalysisPage.jsx:76 | the empty-table message is "No ", the lower-cased title, then " queries found.", and nothing else |
| KeywordAnalysis.EmptyRisingMessage | frontend/src/pages/KeywordAnalysisPage.jsx:76 | as written, an empty rising list reads "No rising related queries queries found." |
| KeywordAnalysis.IntendedEmptyMessage | frontend/src/pages/KeywordAnalysisPage.jsx:76 | the corrected message: "No ", the lower-cased title, then " found.", and nothing else |
| KeywordAnalysis.DoubledWordForQueriesTitles | frontend/src/pages/KeywordAnalysisPage.jsx:76-107 | for every title ending in "Queries", as both of the page's titles do, the message as written contains "queries queries", and the corrected one ends in "queries found." |
| KeywordAnalysis.QueryTableRows | frontend/src/pages/KeywordAnalysisPage.jsx:56-76 | row `i` shows the query of item `i`, and its value text reads back as the item's value |
| KeywordAnalysis.Tables | frontend/src/pages/KeywordAnalysisPage.jsx:106-107 | the top table is empty exactly when the top list is missing or empty, then shows the message for its own title, and never shows the rising icon; the rising table likewise, always with the icon; rows follow their list |
| KeywordAnalysis.AsWrittenEmptyRisingTable | frontend/src/pages/KeywordAnalysisPage.jsx:76-107 | with the message as the page writes it, the empty rising table reads "No rising related queries queries found." |
| KeywordAnalysis.IntendedEmptyRisingMessage | frontend/src/pages/KeywordAnalysisPage.jsx:76-107 | with the corrected message the empty rising table reads "No rising related queries found." |
| KeywordAnalysis.KeywordAnalysisPage.Analysis | frontend/src/pages/KeywordAnalysisPage.jsx:104-107 | the two tables show exactly when a response is stored, rendered from it with the message as written |
| KeywordAnalysis.KeywordAnalysisPage.constructor | frontend/src/pages/KeywordAnalysisPage.jsx:11-14 | the page starts with 'meal prep', no queries, not loading and no error |
| KeywordAnalysis.KeywordAnalysisPage.HandleSubmit | frontend/src/pages/KeywordAnalysisPage.jsx:16-35 | an empty keyword sends nothing and sets the keyword error; otherwise one request for the keyword, pending with cleared state; the response is stored, or the error detail or fallback is shown; loading always ends |
| ForecastPage.RequestsFor | frontend/src/pages/ForecastPage.jsx:75-83 | both requests post the same keyword; only the forecast request names the model, and it carries the promotion date, as a one-element list, exactly when the field is non-empty |
| ForecastPage.PromotionDates | frontend/src/pages/ForecastPage.jsx:78 | `[promotionDate]` for a non-empty field, `[]` otherwise |
| ForecastPage.ChartOptions | frontend/src/pages/ForecastPage.jsx:27-58 | only 'dark' selects the dark legend colour; tooltip title and body use the legend colour, which differs from the tooltip background |
| ForecastPage.ChartColorsFor | frontend/src/pages/ForecastPage.jsx:85-89 | only 'dark' selects the dark historical colour; the forecast colour always differs from the historical one |
| ForecastPage.InterestChart | frontend/src/pages/ForecastPage.jsx:91-101 | one label and one value per historical point, in order, drawn in the theme's historical colour |
| ForecastPage.ForecastTrack | frontend/src/pages/ForecastPage.jsx:117-121 | undefined exactly when there is no historical point (`Array(-1)` throws); otherwise one entry per label, \|H\|+\|F\| |
| ForecastPage.Composite | frontend/src/pages/ForecastPage.jsx:105-129 | built exactly when there is a historical point; then \|H\|+\|F\| labels, a forecast track of the same length in the theme's forecast colour, and a historical track of \|H\| values |
| ForecastPage.AllOf | frontend/src/pages/ForecastPage.jsx:80-83 | both bodies exactly when both requests resolve; otherwise the error of one of the rejected requests |
| ForecastPage.TwoPalettes | frontend/src/pages/ForecastPage.jsx:28-55 | only 'dark' selects the dark series colours and options; every other theme gets the light ones; the two palettes differ |
| ForecastPage.CompositeDefinedIffHistory | frontend/src/pages/ForecastPage.jsx:118 | the composite chart can be built exactly when there is at least one historical point |
| ForecastPage.CompositeLabels | frontend/src/pages/ForecastPage.jsx:92-106 | the labels are the historical labels then the forecast labels, in the order received; their count is \|H\|+\|F\| |
| ForecastPage.HistoricalTrackUnpadded | frontend/src/pages/ForecastPage.jsx:110 | the historical track is exactly the historical values, so it is shorter than the labels when there are forecast points |
| ForecastPage.ForecastTrackShape | frontend/src/pages/ForecastPage.jsx:117-121 | the forecast track is \|H\|-1 nulls, the last historical value, then each `yhat` in order |
| ForecastPage.TracksMeetAtJoin | frontend/src/pages/ForecastPage.jsx:110-121 | the forecast track has one entry per label and meets the historical track at index \|H\|-1 |
| ForecastPage.EmptyForecastKeepsJoin | frontend/src/pages/ForecastPage.jsx:117-121 | with no forecast points the track still holds the join value |
| ForecastPage.ThemeLeavesDataAlone | frontend/src/pages/ForecastPage.jsx:85-121 | the theme changes colours only: labels and tracks are the same under every theme |
| ForecastPage.TwoPointsOnePrediction | frontend/src/pages/ForecastPage.jsx:105-129 | points 10, 20 and one prediction 30 give the tracks [10, 20] and [null, 20, 30] over three labels |
| ForecastPage.ForecastPage.constructor | frontend/src/pages/ForecastPage.jsx:16-23 | the page starts with 'iPhone', 'prophet', no promotion date, no charts, not loading and no error |
| ForecastPage.ForecastPage.HandleSubmit | frontend/src/pages/ForecastPage.jsx:61-144 | an empty keyword sends nothing and sets the keyword error; otherwise both requests are sent while cleared state is shown; success sets both charts; a rejection or an empty history sets the error and no chart; the two charts are set together; loading always ends |
| Dashboard.KpiCardsShape | frontend/src/pages/DashboardPage.jsx:41-46 | a reported total, keyword and value show as reported (`??` keeps 0 and ''), a missing one as 0, 'N/A' and "Value: N/A"; the peak date shows formatted when truthy and 'N/A' when missing or '' (`?:`); 'Active Users' is 1 with its fixed note |
| Dashboard.KpiCards | frontend/src/pages/DashboardPage.jsx:41-46 | four cards titled, in order, 'Total Keywords Tracked', 'Highest Interest Term', 'Most Recent Peak' and 'Active Users' |
| Dashboard.EmptyKpisDefaults | frontend/src/pages/DashboardPage.jsx:41-46 | with every field null the cards show 0, 'N/A', "Value: N/A", 'N/A' and 1 |
| Dashboard.ValueNoteReadsBack | frontend/src/pages/DashboardPage.jsx:43 | the note under the top keyword is "Value: " followed by text that parses back to the reported value |
| Dashboard.Render | frontend/src/pages/DashboardPage.jsx:36-46 | the loading view while loading, then the error; a loaded page without an error shows the user's name and exactly the `KpiCards` of its KPIs |
| Dashboard.DashboardPage.constructor | frontend/src/pages/DashboardPage.jsx:11-13 | the page starts with no KPIs, loading and no error |
| Dashboard.DashboardPage.FetchKpis | frontend/src/pages/DashboardPage.jsx:22-31 | a response replaces the KPIs, a failure sets the fixed error; loading always ends |
| Dashboard.MountAndFetch | frontend/src/pages/DashboardPage.jsx:21-46 | from a fresh page, a failed fetch shows the fixed error and a successful one shows the cards of the response |
| ProfileDropdown.UserEmail | frontend/src/components/ProfileDropdown.jsx:15 | the subject when it is truthy, otherwise '' |
| ProfileDropdown.Avatar | frontend/src/components/ProfileDropdown.jsx:36 | the upper-cased first letter of the name, or '' for an empty name |
| ProfileDropdown.AvatarOfUser | frontend/src/components/ProfileDropdown.jsx:14-15 | 'U' without a subject; with one, one letter exactly when the subject does not start with '@' |
| ProfileDropdown.ThemeLabel | frontend/src/components/ProfileDropdown.jsx:55 | 'Dark Mode' exactly in the light theme; 'Light Mode' for every other value |
| ProfileDropdown.Dropdown.constructor | frontend/src/components/ProfileDropdown.jsx:11 | the menu starts closed |
| ProfileDropdown.Dropdown.Toggle | frontend/src/components/ProfileDropdown.jsx:35 | a click flips the menu |
| ProfileDropdown.Dropdown.MouseDown | frontend/src/components/ProfileDropdown.jsx:19-23 | a press outside closes the menu, a press inside leaves it |
| ProfileDropdown.ClickTwiceThenOutside | frontend/src/components/ProfileDropdown.jsx:19-35 | two clicks on the button restore the menu's state; a press outside then closes it |
| AuthPages.RegisterSubmit | frontend/src/pages/RegisterPage.jsx:14-31 | a password under 6 characters stops before the request with its message; otherwise `register(email, password)` is called, and success navigates to /login while failure shows the detail or fallback |
| AuthPages.RegisterPage.constructor | frontend/src/pages/RegisterPage.jsx:7-10 | the form starts empty, with no error and not loading, over the given provider |
| AuthPages.RegisterPage.HandleSubmit | frontend/src/pages/RegisterPage.jsx:14-31 | the outcome is `RegisterSubmit` of the form and the request's settlement; the pending state is shown exactly when the request is made; loading always ends |
| AuthPages.LoginSubmit | frontend/src/pages/LoginPage.jsx:13-25 | success navigates to /dashboard with no error; failure shows the detail or the fallback, never an empty error |
| AuthPages.LoginPage.constructor | frontend/src/pages/LoginPage.jsx:6-9 | the form starts empty, with no error and not loading, over the given provider |
| AuthPages.UndecodableTokenShowsFallback | frontend/src/pages/LoginPage.jsx:17-21 | a token that does not decode shows the fixed fallback, yet the token stays stored |
| AuthPages.LoginPage.HandleSubmit | frontend/src/pages/LoginPage.jsx:13-25 | the session moves by `LoginStep`; navigation and error follow `LoginSubmit`; loading always ends |
| Trends.Lookup | backend/src/api/trends.py:15 | a stored term with the keyword, and no earlier term has it; None exactly when no term has it |
| Trends.TermById | backend/src/api/trends.py:78 | the term the join pairs with a row: a stored term with that id; None exactly when no term has it |
| Trends.RowsOf | backend/src/api/trends.py:28-34 | a term's points, in table order, never more than the table's rows |
| Trends.RowsOfMembers | backend/src/api/trends.py:28-34 | a point is among a term's points exactly when the table holds that term's row with its date and value |
| Trends.Without | backend/src/api/trends.py:29 | the rows left after deleting a term's rows: none belongs to the term, and all were already there |
| Trends.Attach | backend/src/api/trends.py:32 | one new row per fetched point, in order, tied to the term |
| Trends.Replaced | backend/src/api/trends.py:28-34 | after delete-then-insert, every row is an old row of another term or a row of the term; every old row of another term is kept; every row of the term is a fetched point |
| Trends.CreateKeepsValid | backend/src/api/trends.py:22-26 | creating a term for a missing keyword with the next id keeps keywords and ids unique, and the keyword then finds the new term |
| Trends.ReplaceKeepsValid | backend/src/api/trends.py:28-34 | replacing a stored term's rows keeps every row tied to a stored term |
| Trends.ReplacedRows | backend/src/api/trends.py:28-34 | after replacement the term's rows are exactly the fetched points, and every other term keeps its rows |
| Trends.SelectForecaster | backend/src/api/trends.py:51-56 | XGBoost exactly when the lower-cased name is 'xgboost'; Prophet exactly when it is 'prophet'; otherwise none |
| Trends.SelectIgnoresCase | backend/src/api/trends.py:51-53 | a name selects the same forecaster as its lower-cased form |
| Trends.MixedCaseSelects | backend/src/api/trends.py:51-54 | 'XGBoost' selects XGBoost and 'Prophet' selects Prophet |
| Trends.ForecastResponse | backend/src/api/trends.py:48-63 | an unknown model is exactly the 400 with its fixed detail; otherwise the forecaster runs with a 52-week horizon, and its rows are the response or what it raised becomes a 500 with the fixed prefix |
| Trends.Joined | backend/src/api/trends.py:78 | every joined pair is a stored row with the term whose id it references; when every row's term is stored, the join holds every row, in table order |
| Trends.MaxIndex | backend/src/api/trends.py:80 | an index of maximal value, with every earlier row strictly smaller, so the first row wins ties |
| Trends.KpisOf | backend/src/api/trends.py:71-90 | the total is the number of terms; with no joined rows the other fields are null; otherwise keyword, value and date all come from the first row of maximal value |
| Trends.KpisOverAllRows | backend/src/api/trends.py:77-84 | in a valid store, no rows give null KPIs; otherwise keyword, value and date come from one row of the table, the first of maximal value, with its term's keyword |
| Trends.TrendStore.FindTerm | backend/src/api/trends.py:15 | the loop finds the same term as `Lookup` |
| Trends.Refreshed | backend/src/api/trends.py:13-36 | the table effect of a refresh: the old terms stay a prefix of the new ones, at most one term is added, and only for a keyword that had none, with the next id; a successful refresh leaves the keyword with a term |
| Trends.RefreshedRows | backend/src/api/trends.py:28-34 | after a successful refresh the term's rows are exactly the fetched points and every other term keeps its rows |
| Trends.TrendStore.constructor | backend/src/db/models.py:11-23 | the store starts with empty term and row tables and satisfies its invariant |
| Trends.TrendStore.CacheTrendData | backend/src/api/trends.py:13-36 | the fetch is returned and the tables move by `Refreshed`; store invariants are kept |
| Trends.TrendStore.GetInterestData | backend/src/api/trends.py:38-41 | the tables move by `Refreshed`; a failed fetch changes nothing; otherwise the response is the fetched points, which are then exactly the keyword's stored rows, and every other term keeps its rows |
| Trends.TrendStore.GetForecast | backend/src/api/trends.py:43-63 | the data is cached before dispatch: a failed fetch changes nothing and is the error; otherwise the term's rows are the fetched points, other terms keep theirs, even when the model is then rejected, and the response is `ForecastResponse` |
| Trends.DefaultModelIsProphet | backend/src/schemas/schemas.py:29-32 | a request that names only a keyword has no promotion dates and is dispatched to Prophet |
| Trends.TrendStore.Kpis | backend/src/api/trends.py:69-90 | the KPIs are `KpisOf` of the two tables |

## Left out

- I/O is not modelled: HTTP transport, React rendering and animation,
  `console.error`, the scroll timer, and routing beyond the navigation target.
- Case mapping covers ASCII only. JavaScript `toLowerCase`/`toUpperCase` and
  Python `str.lower` also map other Unicode letters.
- ProgressBar.Variants: how JavaScript renders a number in a template literal
  is a parameter; so is float formatting in general.
- ForecastPage.AllOf: which rejection `Promise.all` reports when both requests
  fail depends on timing, so it is a parameter.
- Concurrency is not modelled. Each handler runs from submit to settlement
  without interleaving, and no stale-response guard exists in the source.
- Chart.js options other than colours are not modelled: zoom, tension, point
  radius and dashes.
- The forecasters (`forecasting.py`), the Google Trends client
  (`pytrends_service.py`) and the mock-data loader are not part of this model.
  Their results are inputs.
- `get_related_queries_data` passes the client's result through unchanged. It
  is the `response` input of `KeywordAnalysis.KeywordAnalysisPage.HandleSubmit`.
- Trends.ForecastResponse: an exception raised while a forecaster is
  constructed, outside the `try`, is not modelled; only `train_and_forecast`
  raising is.
- FastAPI's own 422 validation errors, whose `detail` is a list, are not
  modelled; `detail` is a string or absent.
- Authentication (`get_current_user`) on the endpoints is not modelled.
- Trends.KpisOf: the join is taken in table order. SQL gives no order without
  `ORDER BY`, so "the first row on ties" is relative to that order.
- Trends.TrendStore.CacheTrendData: ids come from a counter in place of the
  database's autoincrement; the unique-keyword constraint is kept as an
  invariant.
- AuthPages.RegisterSubmit: `password.length` counts UTF-16 code units; here it
  counts characters.
- Auth.LoginStep: a response without `access_token` stores the string
  "undefined" in the source; the model takes the token as given.

## Findings

| source | as written | input that shows it | evidently intended | confidence | as-written member | corrected member |
|---|---|---|---|---|---|---|
| frontend/src/pages/KeywordAnalysisPage.jsx:76 | the empty-table text is "No ", the lower-cased title, then " queries found.", but both titles already end in "Queries" | an empty `rising` list renders "No rising related queries queries found." | "No rising related queries found." | not executed | KeywordAnalysis.EmptyRisingMessage | KeywordAnalysis.IntendedEmptyRisingMessage |

`KeywordAnalysis.QueryTable` and `KeywordAnalysis.Tables` take the
empty-table message as a parameter. The page
(`KeywordAnalysis.KeywordAnalysisPage.Analysis`) passes
`KeywordAnalysis.EmptyMessage`, the text as written, so its empty rising
table shows the doubled word (`KeywordAnalysis.AsWrittenEmptyRisingTable`).
With the corrected `KeywordAnalysis.IntendedEmptyMessage` the same table
reads as intended (`KeywordAnalysis.IntendedEmptyRisingMessage`).
`KeywordAnalysis.DoubledWordForQueriesTitles` shows the doubling for every
title ending in "Queries", not only for this one.
