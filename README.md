# F1 Analytics Dashboard: a verified model of its data logic

The F1 Analytics Dashboard is a Formula 1 statistics web application. Its Go
backend serves drivers, teams and races taken from the public OpenF1 API
through a small service with memo caches and a rate-limited retry loop. Its
React frontend keeps the fetched lists in a Redux store and shows a
dashboard with counts and a top-5 team chart. This Dafny project models the
logic of both halves.

- **The Redux slices** (drivers, teams, circuits, races). Modules `ResourceStore` and `RacesSlice`.
  - The four slices are one state machine. It is written once, as a pure reducer `Step` with its fold `Run`, and once as an imperative `Store` class whose methods update its fields in place. Each method is proved to perform exactly one `Step`.
  - The races slice adds the "fetch race results" actions. Their success patches the selected race in place.
  - The store object carries the slice invariant: every method keeps it.
  - Proved: while loading no error is shown; an error message is never empty; the list and the selection hold the last value written; each slice's default error messages.
- **The OpenF1 client** (`backend/services/openf1.go`). Modules `OpenF1`, `OpenF1Request`, `OpenF1Session` and `OpenF1Service`.
  - Modelled: the nil-defaulting helpers, the season rule, the drivers cache key and query URL, the `makeRequest` retry loop, the current-session selection loop, and the service object with its four caches.
  - The network, the JSON decoder and the clock are an `Upstream` input of oracles. A ghost request log shows that a cache hit sends no request.
  - Proved:
    - the cache key is injective on the defaulted arguments;
    - the query string splits back into exactly its parameters;
    - the retry loop agrees with a recursive reference definition, and its back-off waits are 5, 10 and 15 seconds;
    - the selected session is the earliest-listed of the latest eligible sessions;
    - each fetch either hits its cache or fills it only on success.
- **The dashboard page** (`frontend/src/pages/Dashboard.tsx`). Module `Dashboard`.
  - Modelled: the precedence of the spinner over the alert over the content, the alert text, the counts, and the top-5 chart.
  - The chart's sort is a stable insertion sort. It is proved sorted, a permutation and stable, and its first five entries dominate every entry left out.
- **The HTTP client** (`frontend/src/services/api.ts`). Module `Api`.
  - Modelled: the base-URL default, the endpoint paths, the request interceptor that adds the bearer token, and the response interceptor that logs out on a 401.
  - Paths are proved to parse back to their endpoint. Local storage and the window location are the fields of a `Browser` object.

Helper modules: `Optional` (Option and Result), `Text` (the `strings.Join` /
`String.split` pair with its round trip), `Decimal` (`%d` formatting, its
parser and their round trip) and `Entities` (the frontend records).

## Model

| member | source | states |
|---|---|---|
| ResourceStore.ListFailure | frontend/src/store/slices/driversSlice.ts:54-57 | the default message of a failed list fetch is never empty |
| ResourceStore.ItemFailure | frontend/src/store/slices/driversSlice.ts:67-70 | the default message of a failed single fetch is never empty |
| ResourceStore.ErrorText | frontend/src/store/slices/driversSlice.ts:56 | a present non-empty message wins, otherwise the fallback; never empty when the fallback is not |
| ResourceStore.Step | frontend/src/store/slices/driversSlice.ts:39-70 | the seven case reducers of a slice: each pending sets loading and clears the error, each fulfilled stops loading and stores its payload in the list or the selection, each rejected stops loading and sets `message or default`, clear empties the selection |
| ResourceStore.StepKeepsInvariants | frontend/src/store/slices/driversSlice.ts:39-70 | every case reducer except clear leaves "loading implies no error"; every reducer preserves it and "an error is non-empty"; a rejection always sets a non-empty error |
| ResourceStore.RunKeepsInvariants | frontend/src/store/slices/driversSlice.ts:39-70 | both invariants survive any sequence of dispatched actions |
| ResourceStore.ReachableInvariants | frontend/src/store/slices/driversSlice.ts:12-70 | every state reachable from the initial state satisfies both invariants |
| ResourceStore.ListUntouched | frontend/src/store/slices/driversSlice.ts:50-53 | without a successful list fetch the list never changes |
| ResourceStore.ListIsLastPayload | frontend/src/store/slices/driversSlice.ts:50-53 | after any actions the list is the payload of the last successful list fetch |
| ResourceStore.SelectedUntouched | frontend/src/store/slices/driversSlice.ts:63-66 | without a single fetch success or a clear the selection never changes |
| ResourceStore.SelectedIsLastWrite | frontend/src/store/slices/driversSlice.ts:39-66 | the selection is what the last single fetch success or clear wrote |
| ResourceStore.ClearIdempotent | frontend/src/store/slices/driversSlice.ts:39-41 | clearing the selection twice equals clearing once |
| ResourceStore.DriversMessages | frontend/src/store/slices/driversSlice.ts:54-70 | the drivers slice's default messages, used for an absent or empty message |
| ResourceStore.TeamsMessages | frontend/src/store/slices/teamsSlice.ts:54-70 | the teams slice's default messages |
| ResourceStore.CircuitsMessages | frontend/src/store/slices/circuitsSlice.ts:54-70 | the circuits slice's default messages |
| ResourceStore.Store.constructor | frontend/src/store/slices/driversSlice.ts:12-17 | a new slice is empty, unselected, idle and without error, and satisfies the slice invariant |
| ResourceStore.Store.FetchAllPending | frontend/src/store/slices/driversSlice.ts:46-49 | sets loading, clears the error, keeps list and selection; equals one `Step`; keeps the slice invariant |
| ResourceStore.Store.FetchAllFulfilled | frontend/src/store/slices/driversSlice.ts:50-53 | stops loading and stores the payload, leaving selection and error; equals one `Step`; keeps the slice invariant |
| ResourceStore.Store.FetchAllRejected | frontend/src/store/slices/driversSlice.ts:54-57 | stops loading and sets the message or the list default; equals one `Step`; keeps the slice invariant |
| ResourceStore.Store.FetchOnePending | frontend/src/store/slices/driversSlice.ts:59-62 | sets loading and clears the error; equals one `Step`; keeps the slice invariant |
| ResourceStore.Store.FetchOneFulfilled | frontend/src/store/slices/driversSlice.ts:63-66 | stops loading and selects the item, leaving list and error; equals one `Step`; keeps the slice invariant |
| ResourceStore.Store.FetchOneRejected | frontend/src/store/slices/driversSlice.ts:67-70 | stops loading and sets the message or the single-item default; equals one `Step`; keeps the slice invariant |
| ResourceStore.Store.ClearSelection | frontend/src/store/slices/driversSlice.ts:39-41 | empties the selection and nothing else; equals one `Step`; keeps the slice invariant |
| RacesSlice.RaceStep | frontend/src/store/slices/racesSlice.ts:46-93 | the races reducers: the common ones of `Step` with the races defaults, plus the results fetch whose success patches the selected race's results only when a race is selected |
| RacesSlice.ResultsPatchOnly | frontend/src/store/slices/racesSlice.ts:84-89 | a results success replaces only the selected race's results, keeps list, error and the race's other fields, and with nothing selected only stops loading |
| RacesSlice.RaceStepKeepsInvariants | frontend/src/store/slices/racesSlice.ts:46-93 | the races slice's reducers, results fetch included, keep both slice invariants |
| RacesSlice.RaceRunKeepsInvariants | frontend/src/store/slices/racesSlice.ts:46-93 | both invariants survive any sequence of races actions |
| RacesSlice.RaceReachableInvariants | frontend/src/store/slices/racesSlice.ts:12-93 | every reachable races state satisfies both invariants |
| RacesSlice.RacesMessages | frontend/src/store/slices/racesSlice.ts:62-93 | the races slice's three default messages |
| RacesSlice.FetchResultsPending | frontend/src/store/slices/racesSlice.ts:80-83 | sets loading and clears the error; on a races store, keeps the slice invariant |
| RacesSlice.FetchResultsFulfilled | frontend/src/store/slices/racesSlice.ts:84-89 | stops loading and, only when a race is selected, sets its results; on a races store, keeps the slice invariant |
| RacesSlice.FetchResultsRejected | frontend/src/store/slices/racesSlice.ts:90-93 | stops loading and sets the message or "Failed to fetch race results"; on a races store, keeps the slice invariant |
| OpenF1.IntValue | backend/services/openf1.go:417-422 | `getIntValue`: the pointed-to integer, 0 for nil |
| OpenF1.StringValue | backend/services/openf1.go:424-429 | `getStringValue`: the pointed-to string, "" for nil |
| OpenF1.IntValueMerges | backend/services/openf1.go:417-422 | a present integer is kept, absent reads 0, and only absent and zero are merged |
| OpenF1.StringValueMerges | backend/services/openf1.go:424-429 | a present string is kept, absent reads "", and only absent and empty are merged |
| OpenF1.CurrentSeason | backend/services/openf1.go:60-68 | the season is this year or the year before |
| OpenF1.SeasonSpan | backend/services/openf1.go:60-68 | a season covers March of its year to February of the next; the previous year is returned exactly in January and February |
| OpenF1.SeasonMonotone | backend/services/openf1.go:60-68 | the season never decreases as the date advances |
| OpenF1.DriversCacheKey | backend/services/openf1.go:205-209 | the drivers cache key: season, meeting key, session key and team name, defaulted, joined by dashes |
| OpenF1.DashedInjective | backend/services/openf1.go:205 | a number, a dash and the rest can be split back uniquely, negative numbers included |
| OpenF1.CacheKeyInjective | backend/services/openf1.go:205-209 | two drivers queries share a cache key exactly when their defaulted arguments agree |
| OpenF1.ZeroAndAbsentShareKey | backend/services/openf1.go:205-246 | an explicit zero filter and an absent one share a cache key although their queries differ |
| OpenF1.DriversURL | backend/services/openf1.go:229-246 | the drivers endpoint, then the session key parameter followed by the present season, meeting and team filters, joined with '&' |
| OpenF1.BuildDriversURL | backend/services/openf1.go:229-246 | the appended-parameter construction yields the session key followed by the present filters, joined with '&' |
| OpenF1.UnfilteredQuery | backend/services/openf1.go:229-246 | with no filters the query is the session key alone, with no trailing '&' |
| OpenF1.DriversQueryParts | backend/services/openf1.go:229-246 | splitting the query on '&' gives back exactly the session key and the present filters in order, provided the team name has no '&' |
| OpenF1Request.Retry | backend/services/openf1.go:182-199 | the reference outcome of the retry loop: the first of three attempts that is not a 429 decides (a transport error fails, any other response is returned), three 429s exhaust the retries |
| OpenF1Request.MakeRequest | backend/services/openf1.go:182-199 | equals the reference `Retry`; the waits follow 429s only and grow as 5, 10, 15 s; retries are exhausted exactly after three 429s; otherwise the first non-429 attempt decides |
| OpenF1Request.RetrySkipsRateLimited | backend/services/openf1.go:182-197 | a run of 429s does not change the outcome, which is that of the first attempt after the run |
| OpenF1Request.RetryExamples | backend/services/openf1.go:182-199 | three 429s give "max retries exceeded"; a first transport error fails at once |
| OpenF1Session.MostRecentUnique | backend/services/openf1.go:113-143 | the selection predicate admits at most one index |
| OpenF1Session.SelectMostRecent | backend/services/openf1.go:113-147 | returns the eligible session starting last, the earliest listed among ties, and none exactly when no session has started and has driver data |
| OpenF1Service.SessionLookupDeterministic | backend/services/openf1.go:94-154 | the session lookup specification admits exactly one outcome per upstream |
| OpenF1Service.Service.constructor | backend/services/openf1.go:34-45 | all caches start empty |
| OpenF1Service.Service.GetCurrentSession | backend/services/openf1.go:82-155 | a cached session is returned without any request; otherwise each failure is reported as in the source, the selected session is returned and only a success is cached |
| OpenF1Service.Service.GetDrivers | backend/services/openf1.go:203-278 | a key hit returns the cached list without a request; a miss fetches the built URL for the given or current session key and caches only a success under the key |
| OpenF1Service.Service.GetTeams | backend/services/openf1.go:281-313 | memoized under "current"; a miss fetches the current session's teams and caches only a success |
| OpenF1Service.Service.GetRaces | backend/services/openf1.go:316-348 | memoized under "current"; a miss fetches the current session's races and caches only a success |
| Dashboard.DashboardView | frontend/src/pages/Dashboard.tsx:25-54 | the page: a spinner while any query loads, else an alert when any query failed, else the statistics |
| Dashboard.FirstMessage | frontend/src/pages/Dashboard.tsx:36 | the alert text: the first non-empty message of drivers, teams, races, else "An error occurred" |
| Dashboard.CountActive | frontend/src/pages/Dashboard.tsx:45 | the number of drivers flagged active |
| Dashboard.ComputeStats | frontend/src/pages/Dashboard.tsx:42-54 | the three list lengths, the active-driver count and the chart data |
| Dashboard.SortByPoints | frontend/src/pages/Dashboard.tsx:53 | the chart entries ordered by descending points, ties in input order |
| Dashboard.TopFive | frontend/src/pages/Dashboard.tsx:53-54 | the first five entries of the sorted list, or all of them when fewer |
| Dashboard.TeamPointsData | frontend/src/pages/Dashboard.tsx:48-54 | each team mapped to its (name, points) bar, sorted, first five |
| Dashboard.CountActiveBounds | frontend/src/pages/Dashboard.tsx:45 | active drivers number at most all drivers, all exactly when every driver is active, none exactly when none is |
| Dashboard.InsertSorted | frontend/src/pages/Dashboard.tsx:53 | inserting into a list sorted by descending points keeps it sorted |
| Dashboard.InsertKeeps | frontend/src/pages/Dashboard.tsx:53 | insertion adds exactly the inserted entry |
| Dashboard.SortByPointsCorrect | frontend/src/pages/Dashboard.tsx:53 | the sort orders by descending points and is a permutation of its input |
| Dashboard.SortByPointsStable | frontend/src/pages/Dashboard.tsx:53 | the sort keeps entries with equal points in input order |
| Dashboard.TopFiveCorrect | frontend/src/pages/Dashboard.tsx:53-54 | the top five holds min(5, n) entries, sorted, drawn from the input, and none left out has more points than the last kept |
| Dashboard.TeamPointsDataCorrect | frontend/src/pages/Dashboard.tsx:48-54 | the chart shows min(5, teams) bars of team names and points, highest first, and no team left out outscores the last bar |
| Dashboard.ViewPrecedence | frontend/src/pages/Dashboard.tsx:25-39 | any loading query shows the spinner; otherwise any error shows an alert whose text is the first non-empty message in drivers, teams, races order, else the generic text |
| Dashboard.StatsCorrect | frontend/src/pages/Dashboard.tsx:42-54 | the counts are the list lengths (absent lists read as empty), active drivers never exceed drivers, and the chart has at most five bars and at most one per team |
| Api.BaseURL | frontend/src/services/api.ts:4 | the configured base URL unless it is absent or empty, then the localhost default; never empty |
| Api.Path | frontend/src/services/api.ts:14-31 | every endpoint path is absolute |
| Api.PathRoundTrip | frontend/src/services/api.ts:14-31 | every endpoint path parses back to the endpoint it was built for |
| Api.PathInjective | frontend/src/services/api.ts:14-31 | distinct endpoints have distinct paths |
| Api.Token | frontend/src/services/api.ts:35 | the stored token, absent when local storage has no "token" entry |
| Api.WithBearer | frontend/src/services/api.ts:36-38 | the headers with Authorization set to "Bearer " and the token when the token is present and non-empty, unchanged otherwise |
| Api.WithBearerCorrect | frontend/src/services/api.ts:34-40 | a non-empty stored token sets Authorization to "Bearer " and the token; otherwise the headers are unchanged; other headers are never touched |
| Api.InterceptRequest | frontend/src/services/api.ts:34-40 | passes on the same config with its headers given the stored bearer token |
| Api.InterceptResponse | frontend/src/services/api.ts:43-52 | passes a success through and rejects with the same error; a 401 removes the stored token and moves to the login page, anything else changes nothing |
| Api.LogoutDropsBearer | frontend/src/services/api.ts:34-52 | after a 401 logout no token is stored, so the next request is sent without Authorization; other stored entries survive |

## Left out

- HTTP, JSON decoding, the clock and reading response bodies are inputs of the model (`Upstream`, `reply`, the decoders, `now`).
  - Timestamps are whole numbers rather than `time.Time`.
  - Whether a session "has driver data" is one oracle. In the source that means the probe GET succeeded, decoded and returned a non-empty list.
- Concurrency in openf1.go is left out: the mutex, the read-write lock on the caches and the one-slot request semaphore. The caches are plain maps of one `Service` object.
- Timing is left out.
  - `rateLimit` and its sleeping are not modelled.
  - `makeRequest`'s sleeps become the returned list of waits.
  - The HTTP client's 10-second timeout is not modelled.
- The "max retries exceeded" error's embedded last error is not modelled. In the source it is always nil at that point, since a transport error returns earlier.
- `GetCircuits` and `GetRaceResults` of openf1.go are not modelled. They are uncached single fetches through `makeRequest`, with no logic beyond it.
- The HTTP handlers and `main.go` are not part of this model. The same goes for the react-query hooks that feed the dashboard and the page markup.
- Logging (`fmt.Printf` of URLs, bodies and drivers) is left out.
- Floating-point fields of the records are dropped. Team points are whole numbers, so `b.points - a.points` is an exact comparison.
- Error values are kept as their cause chain (`CurrentSessionFailed(...)`, `FetchFailed("drivers", ...)`), not as formatted strings.
- The dashboard's hooks report an error by its message alone. A JavaScript `Error` object is truthy even when its message is empty; `Query.error` being present plays that role.
- `createAsyncThunk` is left out. Each thunk's pending, fulfilled and rejected actions are modelled as dispatched actions. Immer's draft mechanics are modelled as in-place field updates.
- `Api.Path` covers endpoint ids that are integers. JavaScript template formatting of non-integer numbers is not modelled.
- axios itself is left out: sending the request, the default `Content-Type` header merge and promise chaining. The interceptors are modelled as methods called on the config and on the outcome.
- OpenF1.DriversQueryParts: the team name is put into the URL without escaping, so the query splits back into its parameters only when the name contains no '&'. The lemma states that requirement and proves nothing for other names.
- Whether a session has driver data is one oracle keyed by session key. Two list entries with the same key therefore always get the same answer, although the source probes each entry separately and repeated probes could disagree.
