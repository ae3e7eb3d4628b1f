/**
 * The report service: the report kinds and file formats, reads that fall
 * back to fixed empty answers, and the generate requests whose bodies are the
 * subject's ids spread together with the caller's options.
 */
module ReportService {
  import opened Wrappers
  import opened JsonValues
  import opened ApiClientModel
  import opened ServiceOutcomes

  /** `report_type`: what a report is about. */
  datatype ReportType = PropertyReport | PortfolioReport | MarketReport

  /** `format`: the file a report is delivered as. */
  datatype Format = Pdf | Csv | Xlsx

  function ReportTypeName(t: ReportType): string
  {
    match t
    case PropertyReport => "property"
    case PortfolioReport => "portfolio"
    case MarketReport => "market"
  }

  /** The report kind a wire name denotes; any other string is no kind. */
  function ParseReportType(s: string): (r: Option<ReportType>)
    ensures r.Some? ==> ReportTypeName(r.value) == s
    ensures r.None? <==> s !in {"property", "portfolio", "market"}
  {
    if s == "property" then Some(PropertyReport)
    else if s == "portfolio" then Some(PortfolioReport)
    else if s == "market" then Some(MarketReport)
    else None
  }

  function FormatName(f: Format): string
  {
    match f
    case Pdf => "pdf"
    case Csv => "csv"
    case Xlsx => "xlsx"
  }

  /** The format a wire name denotes; any other string is no format. */
  function ParseFormat(s: string): (r: Option<Format>)
    ensures r.Some? ==> FormatName(r.value) == s
    ensures r.None? <==> s !in {"pdf", "csv", "xlsx"}
  {
    if s == "pdf" then Some(Pdf)
    else if s == "csv" then Some(Csv)
    else if s == "xlsx" then Some(Xlsx)
    else None
  }

  /** Every report kind and every format reads back from its wire name. */
  lemma NamesRoundTrip(t: ReportType, f: Format)
    ensures ParseReportType(ReportTypeName(t)) == Some(t)
    ensures ParseFormat(FormatName(f)) == Some(f)
  {
  }

  /** The options a generate call accepts: an optional format. */
  datatype ReportOptions = ReportOptions(format: Option<Format>)

  /** `{ ...options }` as an object: a `format` key only when a format was given. */
  function OptionFields(options: ReportOptions): (r: map<string, Json>)
    ensures options.format.None? ==> r == map[]
    ensures options.format.Some? ==> r.Keys == {"format"} && r["format"] == JStr(FormatName(options.format.value))
  {
    match options.format
    case None => map[]
    case Some(f) => map["format" := JStr(FormatName(f))]
  }

  /**
   * `{ ...ids, ...options }`: the id fields with the option fields spread
   * after them, a later key replacing an earlier one.
   */
  function SpreadBody(ids: map<string, Json>, options: ReportOptions): (r: Json)
    requires "format" !in ids
    ensures r.JObj?
    ensures r.fields.Keys == ids.Keys + OptionFields(options).Keys
    ensures forall k :: k in ids ==> r.fields[k] == ids[k]
    ensures options.format.Some? ==> Member(r, "format") == Found(JStr(FormatName(options.format.value)))
    ensures options.format.None? ==> Member(r, "format") == Undefined
  {
    JObj(ids + OptionFields(options))
  }

  /** `getReports`: the list the client returned, or an empty first page. */
  function GetReports(send: Request -> Outcome<Json>, params: map<string, Json> := map[]): (r: Outcome<Json>)
    ensures r.Ok?
    ensures send(GetRequest("/reports", params)).Ok? ==> r == send(GetRequest("/reports", params))
    ensures send(GetRequest("/reports", params)).Err? ==>
              ListItems(r.value, "reports") == Some([]) && PageConsistent(r.value, "reports") &&
              PaginationField(r.value, "limit") == Some(JNum(10.0)) &&
              PaginationField(r.value, "offset") == Some(JNum(0.0))
  {
    Recover(send(GetRequest("/reports", params)), EmptyPage("reports"))
  }

  /** `getReportDetail`: the report the client returned, or `{ data: {} }`. */
  function GetReportDetail(send: Request -> Outcome<Json>, reportId: string): (r: Outcome<Json>)
    ensures r.Ok?
    ensures send(GetRequest("/reports/" + reportId, map[])).Ok? ==>
              r == send(GetRequest("/reports/" + reportId, map[]))
    ensures send(GetRequest("/reports/" + reportId, map[])).Err? ==> r.value == EmptyData
  {
    Recover(send(GetRequest("/reports/" + reportId, map[])), EmptyData)
  }

  /** The body of a property report request. */
  function PropertyReportBody(propertyId: string, options: ReportOptions): (r: Json)
    ensures Member(r, "property_id") == Found(JStr(propertyId))
    ensures r.fields.Keys == {"property_id"} + OptionFields(options).Keys
    ensures options.format.Some? ==> Member(r, "format") == Found(JStr(FormatName(options.format.value)))
  {
    SpreadBody(map["property_id" := JStr(propertyId)], options)
  }

  /** The body of a portfolio report request. */
  function PortfolioReportBody(portfolioId: string, options: ReportOptions): (r: Json)
    ensures Member(r, "portfolio_id") == Found(JStr(portfolioId))
    ensures r.fields.Keys == {"portfolio_id"} + OptionFields(options).Keys
    ensures options.format.Some? ==> Member(r, "format") == Found(JStr(FormatName(options.format.value)))
  {
    SpreadBody(map["portfolio_id" := JStr(portfolioId)], options)
  }

  /** The body of a market report request. */
  function MarketReportBody(city: string, state: string, options: ReportOptions): (r: Json)
    ensures Member(r, "city") == Found(JStr(city))
    ensures Member(r, "state") == Found(JStr(state))
    ensures r.fields.Keys == {"city", "state"} + OptionFields(options).Keys
    ensures options.format.Some? ==> Member(r, "format") == Found(JStr(FormatName(options.format.value)))
  {
    SpreadBody(map["city" := JStr(city), "state" := JStr(state)], options)
  }

  /** `generatePropertyReport`: posts the body; a failure is re-thrown unchanged. */
  function GeneratePropertyReport(send: Request -> Outcome<Json>, propertyId: string,
                                  options: ReportOptions := ReportOptions(None)): (r: Outcome<Json>)
    ensures r == send(PostRequest("/reports/property", Some(PropertyReportBody(propertyId, options))))
  {
    send(PostRequest("/reports/property", Some(PropertyReportBody(propertyId, options))))
  }

  /** `generatePortfolioReport`: posts the body; a failure is re-thrown unchanged. */
  function GeneratePortfolioReport(send: Request -> Outcome<Json>, portfolioId: string,
                                   options: ReportOptions := ReportOptions(None)): (r: Outcome<Json>)
    ensures r == send(PostRequest("/reports/portfolio", Some(PortfolioReportBody(portfolioId, options))))
  {
    send(PostRequest("/reports/portfolio", Some(PortfolioReportBody(portfolioId, options))))
  }

  /** `generateMarketReport`: posts the body; a failure is re-thrown unchanged. */
  function GenerateMarketReport(send: Request -> Outcome<Json>, city: string, state: string,
                                options: ReportOptions := ReportOptions(None)): (r: Outcome<Json>)
    ensures r == send(PostRequest("/reports/market", Some(MarketReportBody(city, state, options))))
  {
    send(PostRequest("/reports/market", Some(MarketReportBody(city, state, options))))
  }

  /** Without options a generate request carries exactly the subject's ids and no format. */
  lemma DefaultOptionsSendOnlyIds(propertyId: string, portfolioId: string, city: string, state: string)
    ensures PropertyReportBody(propertyId, ReportOptions(None)) == JObj(map["property_id" := JStr(propertyId)])
    ensures PortfolioReportBody(portfolioId, ReportOptions(None)) == JObj(map["portfolio_id" := JStr(portfolioId)])
    ensures MarketReportBody(city, state, ReportOptions(None)).fields.Keys == {"city", "state"}
  {
    assert map["property_id" := JStr(propertyId)] + map[] == map["property_id" := JStr(propertyId)];
    assert map["portfolio_id" := JStr(portfolioId)] + map[] == map["portfolio_id" := JStr(portfolioId)];
  }

  /** No read operation of the service fails, whatever the client does. */
  lemma ReportReadsNeverFail(send: Request -> Outcome<Json>, params: map<string, Json>, reportId: string)
    ensures GetReports(send, params).Ok?
    ensures GetReportDetail(send, reportId).Ok?
  {
  }
}
