# Real-estate investment site: client core in Dafny

This project models the parts of the real-estate investment website's front end that have statable
behaviour, and proves properties about them:

- **The development mock server's property routes** (`MockServer`, `ListQuery`). The list route
  copies the fixture listings and keeps those that pass every supplied filter: a case-insensitive
  city substring and the two price bounds. It then sorts the copy in place by the requested key and
  reports a total. The detail route returns the fixture record with only its id replaced by the
  last segment of the URL.
- **The fixture data** (`MockData`): the three listings and the detailed property record, with the
  consistency facts that hold between their figures.
- **The shared HTTP client** (`ApiClientModel`): the environment URL table, the request shape, and
  the credential. The client holds the credential in memory and persists it in the browser's
  storage. Its request interceptor attaches `Authorization: Bearer <token>` (RFC 6750, section
  2.1), and its response interceptor clears the credential on a 401 answer. `ApiClient` is a class
  whose methods update its fields.
- **The authentication service** (`AuthService`): login, registration and logout as effects on
  the client's credential, and the `isAuthenticated` check.
- **The four data services** (`PropertyService`, `PortfolioService`, `ReportService`,
  `MarketService`, with the shared `ServiceOutcomes`). Each turns one client outcome into a result:
  reads fall back to fixed empty answers, writes re-throw. Each builds request paths, query
  parameters and bodies. The client call is the parameter `send: Request -> Outcome<Json>`.
- **The analysis view's cash-flow arithmetic** (`PropertyAnalysis`): vacancy loss, effective
  income, monthly and total expenses, the itemised rows and the implied mortgage payment, over
  `real`.

Helper modules: `Wrappers` (Option), `JsStrings` (the JavaScript string operations the code
uses: `split`, `join`, `toLowerCase`, `includes`), and `JsonValues` (response bodies as JSON values,
JavaScript property access and truthiness).

## Model

| member | source | states |
|---|---|---|
| JsStrings.SplitJoin | website/src/lib/api/marketService.ts:138-142 | splitting a join of separator-free pieces gives the pieces back |
| JsStrings.JoinSplit | website/src/lib/api/marketService.ts:138-142 | joining the pieces of a split gives the string back |
| JsStrings.LastSegmentOfPath | website/src/lib/api/mockServer.ts:119 | `split('/').pop()` of `prefix + "/" + id` is `id` for a slash-free id |
| JsStrings.SplitSnoc | website/src/lib/api/mockServer.ts:119 | splitting a string, a separator and a separator-free tail gives the string's pieces followed by the tail |
| JsStrings.SplitThree | website/src/lib/api/propertyService.ts:85 | a three-segment path of slash-free segments splits back into the empty root and those segments |
| JsStrings.Lower | website/src/lib/api/mockServer.ts:76 | lower-casing keeps the length, maps each character and leaves no capital |
| JsStrings.LowerIdempotent | website/src/lib/api/mockServer.ts:76 | lower-casing twice is lower-casing once |
| JsStrings.IncludesAt | website/src/lib/api/mockServer.ts:76 | `includes` holds iff the needle occurs at some position of the haystack |
| JsonValues.Member | website/src/lib/api/authService.ts:56 | property access throws on `null`, finds a key an object has, is undefined otherwise |
| MockData.FixtureIdsDistinct | website/src/lib/mockData.ts:5-63 | the three listing ids are pairwise distinct |
| MockData.FixtureCitiesAndScores | website/src/lib/mockData.ts:5-63 | every listing is in Anytown; AI scores strictly fall down the list |
| MockData.FixturesSane | website/src/lib/mockData.ts:5-78 | prices are positive and room counts non-negative, in the list and the detail record |
| MockData.ManagementFeeMatchesRate | website/src/lib/mockData.ts:92-103 | the management expense (2496) is rent × 12 × fee rate |
| MockData.NoiMatchesInputs | website/src/lib/mockData.ts:92-115 | annual NOI (17244) is effective gross income less every expense item except the capex reserve, and counting the reserve would give a different figure |
| MockData.AnnualIsTwelveMonthly | website/src/lib/mockData.ts:111-116 | annual NOI and annual cash flow are twelve times the monthly figures |
| MockData.SummaryAgreesWithDetail | website/src/lib/mockData.ts:5-124 | the first listing's id, price, rooms, area, score and return figures agree with the detail record |
| MockData.StoredCapRateIsNotNoiOverPrice | website/src/lib/mockData.ts:115-119 | the stored cap rate (0.052) is not NOI over price (below 0.039) |
| MockServer.Filter | website/src/lib/api/mockServer.ts:75-90 | `filter` keeps exactly the elements satisfying the predicate and never grows the list |
| MockServer.FilterTwice | website/src/lib/api/mockServer.ts:72-91 | filtering in succession equals one filter by the conjunction: the filters are conjunctive |
| MockServer.FilterKeepsAll | website/src/lib/api/mockServer.ts:72-91 | a filter every element passes returns the list unchanged |
| MockServer.FilterKeepsStrictOrder | website/src/lib/api/mockServer.ts:72-91 | filtering a strictly ordered list keeps it strictly ordered |
| MockServer.SortOrderOf | website/src/lib/api/mockServer.ts:69-100 | an absent or empty `sort_by` means `ai_score`; `price_asc`, `price_desc` and `ai_score` select their order, any other value none |
| MockServer.InsertStep | website/src/lib/api/mockServer.ts:93-100 | one step of the in-place sort extends the ordered prefix by one element and keeps the array a permutation |
| MockServer.SortInPlace | website/src/lib/api/mockServer.ts:93-100 | the in-place sort leaves the array ordered by the comparator's key and a permutation of its old contents |
| MockServer.SortedPermutationIsUnique | website/src/lib/api/mockServer.ts:93-100 | a sorted permutation of a list that is strictly ordered by the key is that list |
| MockServer.FixturesInScoreOrder | website/src/lib/mockData.ts:5-63 | the fixture list is strictly ordered by descending AI score |
| MockServer.FilterFixtures | website/src/lib/api/mockServer.ts:72-91 | the successive filters of the handler leave exactly the matching fixtures in declaration order |
| MockServer.SortStage | website/src/lib/api/mockServer.ts:93-100 | the sorted copy is a permutation, ordered by the selected key; with no selected key it is the list as it was |
| MockServer.RankOrderMeaning | website/src/lib/api/mockServer.ts:94-100 | ordering by the key means non-increasing score, non-decreasing price or non-increasing price |
| MockServer.InRequestedOrder | website/src/lib/api/mockServer.ts:93-100 | the sorted result has non-increasing scores, non-decreasing or non-increasing prices as requested, and is the declaration order under the default key |
| MockServer.DefaultOrderIsDeclarationOrder | website/src/lib/api/mockServer.ts:98-99 | sorting the selected fixtures by descending score gives them back in declaration order |
| MockServer.ListProperties | website/src/lib/api/mockServer.ts:62-115 | a fixture is returned iff it passes every supplied filter; the result is a permutation of the filtered subset, in the requested order, in declaration order by default, with total = count, limit 10, offset 0 |
| MockServer.PropertyDetailRoute | website/src/lib/api/mockServer.ts:118-129 | the route answers exactly the property-id URLs, with the fixture record whose only change is the id, set to the last path segment |
| MockServer.DetailRouteEchoesId | website/src/lib/api/mockServer.ts:118-129 | for a property id, the detail URL is answered with the record carrying that id |
| ApiClientModel.ApiBaseUrl | website/src/lib/api/index.ts:10-22 | an unset or empty environment name gives the local URL; a known name its URL; an unknown name none |
| ApiClientModel.ApiClient.constructor | website/src/lib/api/index.ts:27-37 | a new client holds no token |
| ApiClientModel.ApiClient.SetToken | website/src/lib/api/index.ts:76-79 | the token is `t` in memory and under `auth_token` in storage; nothing else in storage changes |
| ApiClientModel.ApiClient.ClearToken | website/src/lib/api/index.ts:84-87 | the token is gone from memory and `auth_token` from storage |
| ApiClientModel.ApiClient.Init | website/src/lib/api/index.ts:92-99 | only in a browser, and only a non-empty stored token is adopted; otherwise the token is unchanged; storage is untouched |
| ApiClientModel.ApiClient.InterceptRequest | website/src/lib/api/index.ts:40-46 | the request gets `Bearer <token>` iff the token is non-empty; otherwise it is unchanged; no other header or field changes |
| ApiClientModel.ApiClient.InterceptResponse | website/src/lib/api/index.ts:51-62 | every outcome passes through unchanged; a 401 rejection clears the token, any other outcome leaves it |
| ApiClientModel.ApiClient.Send | website/src/lib/api/index.ts:104-131 | the server sees the intercepted request; the caller gets its answer; only a 401 touches the credential |
| AuthService.AccessToken | website/src/lib/api/authService.ts:56 | `response.data.access_token` throws iff the body or its `data` is null or `data` is missing, and is found iff both objects have the key |
| AuthService.TokenToStore | website/src/lib/api/authService.ts:56-58 | a token is stored only when `access_token` is a truthy string |
| AuthService.PostAndStoreToken | website/src/lib/api/authService.ts:48-64 | the answer is returned unchanged or re-thrown; a truthy token is stored; the `TypeError` of a body without `data` is re-thrown; only a 401 touches the credential on failure |
| AuthService.Login | website/src/lib/api/authService.ts:48-65 | as above, for the credentials posted to `/auth/login`; after a stored token the user counts as authenticated exactly in a browser |
| AuthService.Register | website/src/lib/api/authService.ts:70-89 | as above, for the user data posted to `/auth/register` |
| AuthService.Logout | website/src/lib/api/authService.ts:94-103 | whatever the server answers, the token is cleared and the user is not authenticated; in a browser, nothing is thrown |
| AuthService.GetCurrentUser | website/src/lib/api/authService.ts:108-115 | the client's outcome is returned or re-thrown unchanged; a 401 clears the token from memory and storage, any other outcome leaves the credential as it was |
| AuthService.RequestPasswordReset | website/src/lib/api/authService.ts:120-127 | the client's outcome for the posted e-mail is returned or re-thrown unchanged; a 401 clears the token from memory and storage, any other outcome leaves the credential as it was |
| AuthService.ResetPassword | website/src/lib/api/authService.ts:132-143 | the client's outcome for the posted reset is returned or re-thrown unchanged; a 401 clears the token from memory and storage, any other outcome leaves the credential as it was |
| AuthService.IsAuthenticated | website/src/lib/api/authService.ts:148-154 | only in a browser, and only with `auth_token` persisted, is the user authenticated; a consistent client holding a token in a browser is authenticated |
| AuthService.HeldTokenIsAuthenticated | website/src/lib/api/authService.ts:148-154 | in a browser, a client holding a token is authenticated |
| AuthService.EmptyStoredTokenIsAuthenticatedButUnused | website/src/lib/api/authService.ts:148-154 | a persisted empty token counts as authenticated, yet no request carries it |
| ServiceOutcomes.Recover | website/src/lib/api/propertyService.ts:47-62 | a read never fails: a success passes through, a failure becomes the fallback |
| ServiceOutcomes.EmptyPage | website/src/lib/api/propertyService.ts:52-61 | the empty page has no items, total equal to its item count, limit 10 and offset 0 |
| PropertyService.DetailPath | website/src/lib/api/propertyService.ts:70 | for a slash-free id the path splits into `properties` and the id |
| PropertyService.AnalysisPath | website/src/lib/api/propertyService.ts:85 | for a slash-free id the path splits into `properties`, the id and `analysis`; its last segment is `analysis` |
| PropertyService.GetProperties | website/src/lib/api/propertyService.ts:46-63 | a success is returned unchanged; a failure gives an empty page whose total equals its item count |
| PropertyService.GetPropertyDetail | website/src/lib/api/propertyService.ts:68-78 | a success is returned unchanged; a failure gives `{ data: {} }` |
| PropertyService.GetPropertyAnalysis | website/src/lib/api/propertyService.ts:83-91 | a success is returned unchanged; a failure gives `{ data: {} }` |
| PropertyService.AnalyzeProperty | website/src/lib/api/propertyService.ts:96-103 | the client's rejection reaches the caller with the same failure |
| PropertyService.ReadsNeverFail | website/src/lib/api/propertyService.ts:46-91 | no read of the service fails |
| PropertyService.DetailPathAnsweredWithSameId | website/src/lib/api/mockServer.ts:118-129 | the mock answers the detail path the service builds with the record carrying the requested id |
| PropertyService.AnalysisPathIsNotDetailRoute | website/src/lib/api/mockServer.ts:118-132 | the analysis path is not taken by the detail route |
| PortfolioService.PortfolioPath | website/src/lib/api/portfolioService.ts:84 | for a slash-free id the path splits into `portfolios` and the id |
| PortfolioService.HoldingsPath | website/src/lib/api/portfolioService.ts:122 | for a slash-free id the path splits into `portfolios`, the id and `properties` |
| PortfolioService.HoldingPath | website/src/lib/api/portfolioService.ts:134 | for slash-free ids the path splits into `portfolios`, the portfolio id, `properties` and the property id |
| PortfolioService.PerformancePath | website/src/lib/api/portfolioService.ts:146 | for a slash-free id the path splits into `portfolios`, the id and `performance` |
| PortfolioService.GetPortfolios | website/src/lib/api/portfolioService.ts:60-77 | a success is returned unchanged; a failure gives an empty page with total 0, limit 10, offset 0 |
| PortfolioService.EmptyPortfolioDetailIsBlank | website/src/lib/api/portfolioService.ts:88-101 | the fallback record's scalar fields are all empty or zero and its property list is empty |
| PortfolioService.GetPortfolioDetail | website/src/lib/api/portfolioService.ts:82-103 | a success is returned unchanged; a failure gives the blank record |
| PortfolioService.CreatePortfolio | website/src/lib/api/portfolioService.ts:108-115 | the client's rejection for the posted `{ name }` reaches the caller unchanged |
| PortfolioService.HoldingBody | website/src/lib/api/portfolioService.ts:122 | the posted body has exactly the key `property_id`, holding the id |
| PortfolioService.AddPropertyToPortfolio | website/src/lib/api/portfolioService.ts:120-127 | the body is posted to the holdings path; the rejection reaches the caller unchanged |
| PortfolioService.RemovePropertyFromPortfolio | website/src/lib/api/portfolioService.ts:132-139 | the holding path is deleted; the rejection reaches the caller unchanged |
| PortfolioService.GetPortfolioPerformance | website/src/lib/api/portfolioService.ts:144-152 | the request carries the timeframe; a success is returned unchanged; a failure gives `{ data: {} }` |
| PortfolioService.PerformanceDefaultsToAll | website/src/lib/api/portfolioService.ts:144 | without a timeframe the request asks for `all` |
| PortfolioService.RemovePathExtendsAddPath | website/src/lib/api/portfolioService.ts:120-134 | the removal path is the addition path followed by the property id, which is its last segment |
| PortfolioService.HoldingPathInjective | website/src/lib/api/portfolioService.ts:134 | distinct slash-free id pairs are removed through distinct paths |
| PortfolioService.PortfolioReadsNeverFail | website/src/lib/api/portfolioService.ts:60-152 | no read of the service fails |
| ReportService.ParseReportType | website/src/lib/api/reportService.ts:11 | exactly `property`, `portfolio` and `market` name a report kind, and each names the kind it parses to |
| ReportService.ParseFormat | website/src/lib/api/reportService.ts:13 | exactly `pdf`, `csv` and `xlsx` name a format, and each names the format it parses to |
| ReportService.NamesRoundTrip | website/src/lib/api/reportService.ts:9-19 | every kind and format parses back from its name |
| ReportService.OptionFields | website/src/lib/api/reportService.ts:85-92 | the spread options add a `format` key exactly when a format was given |
| ReportService.SpreadBody | website/src/lib/api/reportService.ts:89-92 | the body has the id keys and the option keys, keeps every id value, and carries the format exactly when given |
| ReportService.GetReports | website/src/lib/api/reportService.ts:44-65 | a success is returned unchanged; a failure gives an empty page with total 0, limit 10, offset 0 |
| ReportService.GetReportDetail | website/src/lib/api/reportService.ts:70-80 | requests `/reports/` + id; a success is returned unchanged; a failure gives `{ data: {} }` |
| ReportService.PropertyReportBody | website/src/lib/api/reportService.ts:89-92 | the body holds `property_id` and, when a format is given, `format` with that format's name; nothing else |
| ReportService.PortfolioReportBody | website/src/lib/api/reportService.ts:106-109 | the body holds `portfolio_id` and, when a format is given, `format` with that format's name; nothing else |
| ReportService.MarketReportBody | website/src/lib/api/reportService.ts:123-127 | the body holds `city`, `state` and, when a format is given, `format` with that format's name; nothing else |
| ReportService.GeneratePropertyReport | website/src/lib/api/reportService.ts:85-97 | the body is posted to `/reports/property`; the rejection reaches the caller unchanged |
| ReportService.GeneratePortfolioReport | website/src/lib/api/reportService.ts:102-114 | the body is posted to `/reports/portfolio`; the rejection reaches the caller unchanged |
| ReportService.GenerateMarketReport | website/src/lib/api/reportService.ts:119-132 | the body is posted to `/reports/market`; the rejection reaches the caller unchanged |
| ReportService.DefaultOptionsSendOnlyIds | website/src/lib/api/reportService.ts:85-132 | without options a generate body carries only the subject's ids |
| ReportService.ReportReadsNeverFail | website/src/lib/api/reportService.ts:44-80 | no read of the service fails |
| MarketService.EmptyList | website/src/lib/api/marketService.ts:93-97 | the fallback holds only the named list, and it is empty |
| MarketService.GetMarketTrends | website/src/lib/api/marketService.ts:87-99 | a success is returned unchanged; a failure gives an empty `market_trends` list |
| MarketService.GetEmergingMarkets | website/src/lib/api/marketService.ts:104-116 | a success is returned unchanged; a failure gives an empty `emerging_markets` list |
| MarketService.PlaceParams | website/src/lib/api/marketService.ts:124 | the query holds exactly `city` and `state` |
| MarketService.GetMarketDetail | website/src/lib/api/marketService.ts:121-133 | asks with `{ city, state }`; a success is returned unchanged; a failure gives `{ data: {} }` |
| MarketService.CompareParams | website/src/lib/api/marketService.ts:140-141 | one `markets` parameter whose comma-split gives a non-empty list of comma-free names back |
| MarketService.CompareMarkets | website/src/lib/api/marketService.ts:138-147 | a success is returned unchanged; a failure gives `{ data: {} }` |
| MarketService.CompareParamsCollisions | website/src/lib/api/marketService.ts:140-141 | no names and one empty name send the same query, and so does a name with a comma and its two halves |
| MarketService.ForecastParams | website/src/lib/api/marketService.ts:155 | the query holds exactly `city`, `state` and `timeframe` |
| MarketService.GetMarketForecast | website/src/lib/api/marketService.ts:153-162 | a success is returned unchanged; a failure gives `{ data: {} }` |
| MarketService.ForecastDefaultsToOneYear | website/src/lib/api/marketService.ts:153 | without a timeframe the forecast asks for `1year` |
| MarketService.MarketCallsNeverFail | website/src/lib/api/marketService.ts:87-163 | no call of the service fails |
| PropertyAnalysis.VacancyLoss | website/src/components/PropertyAnalysis.tsx:268 | with a rate in [0, 1] and a non-negative rent the loss lies between 0 and the rent |
| PropertyAnalysis.EffectiveIncome | website/src/components/PropertyAnalysis.tsx:271-278 | income plus vacancy loss is rent plus other income; with the usual bounds on the inputs it lies between the other income and rent plus other income |
| PropertyAnalysis.MonthlyExpenses | website/src/components/PropertyAnalysis.tsx:194 | twelve months of it are the annual items without the capex reserve |
| PropertyAnalysis.TotalExpenses | website/src/components/PropertyAnalysis.tsx:309 | twelve months of it are all annual items including the capex reserve |
| PropertyAnalysis.ExpenseRows | website/src/components/PropertyAnalysis.tsx:285-305 | five rows: a twelfth of the property tax, insurance, maintenance, management and capex reserve, in that order |
| PropertyAnalysis.MortgagePayment | website/src/components/PropertyAnalysis.tsx:324 | the payment plus the monthly cash flow is the monthly NOI |
| PropertyAnalysis.TotalIsMonthlyPlusReserve | website/src/components/PropertyAnalysis.tsx:194-309 | Total Expenses is Monthly Expenses plus a twelfth of the capex reserve |
| PropertyAnalysis.RowsSumToTotalIff | website/src/components/PropertyAnalysis.tsx:285-309 | the five rows add up to Total Expenses iff utilities + HOA + other is zero |
| PropertyAnalysis.NoiIsTwelveMonthsOfIncomeLessExpenses | website/src/components/PropertyAnalysis.tsx:194-278 | NOI from the inputs is twelve times effective income less monthly expenses |
| PropertyAnalysis.FixtureFigures | website/src/components/PropertyAnalysis.tsx:13-20 | on the fixture: total 1163, monthly 1033, effective income 2470, their difference the stored monthly NOI 1437, mortgage 1117, and the rows sum to the total |
| ListQuery.SearchParams | website/src/lib/api/propertyService.ts:25-48 | the parameter object holds a key exactly for each search field given, carrying the given value, and no other key |
| ListQuery.SearchOf | website/src/lib/api/mockServer.ts:64 | a URL without `?` has no query string |
| ListQuery.SearchGet | website/src/lib/api/mockServer.ts:64-69 | with no query string every parameter is absent |
| ListQuery.UrlQuery | website/src/lib/api/mockServer.ts:64-69 | as written: from a URL without a query string the handler reads no parameter at all |
| ListQuery.ServiceSearchIsIgnored | website/src/lib/api/mockServer.ts:62-91 | as written, any search sent through the service selects every fixture |
| ListQuery.SpringfieldSearchReturnsAnytown | website/src/lib/api/mockServer.ts:74-78 | as written, a Springfield search returns an Anytown listing |
| ListQuery.StringParam | website/src/lib/api/mockServer.ts:65-66 | corrected: a string parameter is read iff the object holds a string under that name |
| ListQuery.NumericParam | website/src/lib/api/mockServer.ts:67-68 | corrected: a non-zero number is read as that bound; an absent parameter skips it |
| ListQuery.ParamsQueryKeepsSearch | website/src/lib/api/mockServer.ts:64-69 | corrected: location, sort key and non-zero price bounds reach the handler as given |
| ListQuery.SearchIsHonoured | website/src/lib/api/mockServer.ts:74-91 | corrected: every selected listing lies in a city containing the location and within the price bounds |
| ListQuery.ListFromParams | website/src/lib/api/mockServer.ts:62-115 | corrected route: exactly the fixtures matching the query from the parameter object, with a consistent total |

## Left out

- Transport: axios, the mock adapter's routing and its 500 ms delay, promises and async ordering. A service's client call is a function parameter; the class `ApiClient.Send` shows what one call does to the credential.
- The credential effects of the data services' calls: the service functions take `send` as a pure function, so the token clearing a 401 answer causes there appears only in `ApiClient.Send`.
- The mock server's other routes (authentication, analysis, portfolios, reports, markets): they are constant replies.
- `console.error` logging, and the analysis view's currency formatting and rounding.
- JavaScript numbers are `real`: no floating-point rounding. `Number(text)` is the parameter `toNumber`.
- ListQuery.SearchGet: no percent-decoding and no `+` as a space in query strings.
- ListQuery.SearchParams: the search fields the handler never reads (minimum bedrooms, bathrooms and floor area) are not part of the datatype.
- JsonValues.Member: JavaScript's built-in properties (a string's or an array's `length`, array indices, `Object.prototype` members such as `constructor`) are not modelled; the model finds only an object's own keys. The keys the services read are all own keys of object bodies.
- ApiClientModel.ApiBaseUrl: a name that is an inherited property of a plain object (`toString`, say) yields a function in the source; the model yields no URL.
- AuthService.TokenToStore: a truthy `access_token` that is not a string (a number, an object) would be stored in its string form; the model stores only strings.
- ApiClientModel.ApiClient.SetToken: outside a browser `localStorage` does not exist and the source throws; the model updates its storage map regardless.
- ApiClientModel.ApiClient.ClearToken: outside a browser `localStorage.removeItem` throws a ReferenceError after the in-memory token is nulled; the model removes the key from its storage map and does not throw.
- ApiClientModel.ApiClient.InterceptResponse: outside a browser the 401 branch's `clearToken` throws, so the rejection carries that ReferenceError rather than the 401; the model always passes the 401 through.
- ApiClientModel.ApiClient.Send: inherits the gap of `InterceptResponse` outside a browser: a 401 answer is rejected with a ReferenceError there, not with the 401.
- AuthService.PostAndStoreToken: outside a browser (no `localStorage`), a stored token or a 401 answer makes the source reject with the ReferenceError that `setToken` or `clearToken` throws; the model returns the server's answer.
- AuthService.Login: outside a browser (no `localStorage`), a successful login makes `setToken` throw, so `login` rejects with a ReferenceError, and a 401 rejects with the one `clearToken` throws; the model returns the server's answer and states the token it stores.
- AuthService.Register: outside a browser (no `localStorage`), as for `login`: a stored token or a 401 answer makes `register` reject with a ReferenceError; the model returns the server's answer.
- AuthService.GetCurrentUser: outside a browser (no `localStorage`), a 401 answer is re-thrown as the ReferenceError `clearToken` throws, not as the 401; the model re-throws the 401.
- AuthService.RequestPasswordReset: outside a browser (no `localStorage`), a 401 answer is re-thrown as the ReferenceError `clearToken` throws, not as the 401; the model re-throws the 401.
- AuthService.ResetPassword: outside a browser (no `localStorage`), a 401 answer is re-thrown as the ReferenceError `clearToken` throws, not as the 401; the model re-throws the 401.
- AuthService.Logout: outside a browser `clearToken` throws in the `try` and again in the `catch`, so `logout` rejects; the model's `Logout` always completes.
- JsStrings.Lower: ASCII letters only; no Unicode case mapping.
- MockServer.SortInPlace: proves an ordered permutation, not which of two equal-keyed listings comes first. The fixtures have distinct keys, so the result is the same.
- Supabase services, the migration script, and every page and component without computation. They contain no logic that can be stated as a property.
- A failed login or registration leaves the credential alone unless the answer is a 401. On a 401 the client's response interceptor clears the credential first, and the model follows that code.

## Findings

| source | as written | input that shows it | evidently intended | confidence | as-written member | corrected member |
|---|---|---|---|---|---|---|
| website/src/lib/api/mockServer.ts:64 | the list handler reads its filters from the query string of `config.url`, but `getProperties` passes them in the separate `params` object, so the URL has no `?` and no filter or sort key ever reaches the handler | `getProperties({ location: 'Springfield' })` selects all three Anytown listings | the handler reads the request's parameter object | medium, not executed | ListQuery.ServiceSearchIsIgnored | ListQuery.SearchIsHonoured |
