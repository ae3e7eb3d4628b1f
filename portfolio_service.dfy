/**
 * The portfolio service: reads that fall back to fixed empty answers, writes
 * that re-throw, and the paths it builds from portfolio and property ids.
 */
module PortfolioService {
  import opened Wrappers
  import opened JsStrings
  import opened JsonValues
  import opened ApiClientModel
  import opened ServiceOutcomes

  /** `/portfolios/${portfolioId}` */
  function PortfolioPath(portfolioId: string): (r: string)
    ensures '/' !in portfolioId ==> Split(r, '/') == ["", "portfolios", portfolioId]
  {
    var r := "/portfolios/" + portfolioId;
    if '/' !in portfolioId then
      assert r == "/" + "portfolios" + "/" + portfolioId;
      SplitTwo("portfolios", portfolioId);
      r
    else r
  }

  /** `/portfolios/${portfolioId}/properties` */
  function HoldingsPath(portfolioId: string): (r: string)
    ensures '/' !in portfolioId ==> Split(r, '/') == ["", "portfolios", portfolioId, "properties"]
  {
    var r := "/portfolios/" + portfolioId + "/properties";
    if '/' !in portfolioId then
      assert r == "/" + "portfolios" + "/" + portfolioId + "/" + "properties";
      SplitThree("portfolios", portfolioId, "properties");
      r
    else r
  }

  /** `/portfolios/${portfolioId}/properties/${propertyId}` */
  function HoldingPath(portfolioId: string, propertyId: string): (r: string)
    ensures '/' !in portfolioId && '/' !in propertyId ==>
              Split(r, '/') == ["", "portfolios", portfolioId, "properties", propertyId]
  {
    var r := "/portfolios/" + portfolioId + "/properties/" + propertyId;
    if '/' !in portfolioId && '/' !in propertyId then
      assert r == "/" + "portfolios" + "/" + portfolioId + "/" + "properties" + "/" + propertyId;
      SplitFour("portfolios", portfolioId, "properties", propertyId);
      r
    else r
  }

  /** `/portfolios/${portfolioId}/performance` */
  function PerformancePath(portfolioId: string): (r: string)
    ensures '/' !in portfolioId ==> Split(r, '/') == ["", "portfolios", portfolioId, "performance"]
  {
    var r := "/portfolios/" + portfolioId + "/performance";
    if '/' !in portfolioId then
      assert r == "/" + "portfolios" + "/" + portfolioId + "/" + "performance";
      SplitThree("portfolios", portfolioId, "performance");
      r
    else r
  }

  /** The record `getPortfolioDetail` falls back to: empty strings, zeros and no properties. */
  const EmptyPortfolioDetail: Json := JObj(map["data" := JObj(map[
    "portfolio_id" := JStr(""),
    "name" := JStr(""),
    "total_value" := JNum(0.0),
    "total_properties" := JNum(0.0),
    "cash_flow" := JNum(0.0),
    "cap_rate" := JNum(0.0),
    "cash_on_cash" := JNum(0.0),
    "created_at" := JStr(""),
    "updated_at" := JStr(""),
    "properties" := JArr([])])])

  /** `getPortfolios`: the list the client returned, or an empty first page. */
  function GetPortfolios(send: Request -> Outcome<Json>, params: map<string, Json> := map[]): (r: Outcome<Json>)
    ensures r.Ok?
    ensures send(GetRequest("/portfolios", params)).Ok? ==> r == send(GetRequest("/portfolios", params))
    ensures send(GetRequest("/portfolios", params)).Err? ==>
              ListItems(r.value, "portfolios") == Some([]) && PageConsistent(r.value, "portfolios") &&
              PaginationField(r.value, "limit") == Some(JNum(10.0)) &&
              PaginationField(r.value, "offset") == Some(JNum(0.0))
  {
    Recover(send(GetRequest("/portfolios", params)), EmptyPage("portfolios"))
  }

  /** A portfolio record whose every scalar field is falsy (empty or zero) and whose property list is empty. */
  predicate BlankPortfolio(v: Json)
  {
    && Member(v, "data").Found?
    && v.fields["data"].JObj?
    && (forall k :: k in v.fields["data"].fields && k != "properties" ==> !Truthy(v.fields["data"].fields[k]))
    && ListItems(v, "properties") == Some([])
  }

  /** The fallback record is blank. */
  lemma EmptyPortfolioDetailIsBlank()
    ensures BlankPortfolio(EmptyPortfolioDetail)
  {
    var data := EmptyPortfolioDetail.fields["data"].fields;
    forall k | k in data && k != "properties"
      ensures !Truthy(data[k])
    {
      assert data[k] == JStr("") || data[k] == JNum(0.0);
    }
  }

  /** `getPortfolioDetail`: the record the client returned, or the blank record. */
  function GetPortfolioDetail(send: Request -> Outcome<Json>, portfolioId: string): (r: Outcome<Json>)
    ensures r.Ok?
    ensures send(GetRequest(PortfolioPath(portfolioId), map[])).Ok? ==>
              r == send(GetRequest(PortfolioPath(portfolioId), map[]))
    ensures send(GetRequest(PortfolioPath(portfolioId), map[])).Err? ==>
              r.value == EmptyPortfolioDetail && BlankPortfolio(r.value)
  {
    EmptyPortfolioDetailIsBlank();
    Recover(send(GetRequest(PortfolioPath(portfolioId), map[])), EmptyPortfolioDetail)
  }

  /** `createPortfolio`: posts `{ name }`; a failure is re-thrown unchanged. */
  function CreatePortfolio(send: Request -> Outcome<Json>, name: string): (r: Outcome<Json>)
    ensures r.Err? <==> send(PostRequest("/portfolios", Some(JObj(map["name" := JStr(name)])))).Err?
    ensures r == send(PostRequest("/portfolios", Some(JObj(map["name" := JStr(name)]))))
  {
    send(PostRequest("/portfolios", Some(JObj(map["name" := JStr(name)]))))
  }

  /** The body `addPropertyToPortfolio` posts. */
  function HoldingBody(propertyId: string): (r: Json)
    ensures r.JObj? && r.fields.Keys == {"property_id"}
    ensures Member(r, "property_id") == Found(JStr(propertyId))
  {
    JObj(map["property_id" := JStr(propertyId)])
  }

  /** `addPropertyToPortfolio`: posts `{ property_id }` to the holdings path; failures are re-thrown. */
  function AddPropertyToPortfolio(send: Request -> Outcome<Json>, portfolioId: string, propertyId: string)
    : (r: Outcome<Json>)
    ensures r.Err? <==> send(PostRequest(HoldingsPath(portfolioId), Some(HoldingBody(propertyId)))).Err?
    ensures r == send(PostRequest(HoldingsPath(portfolioId), Some(HoldingBody(propertyId))))
  {
    send(PostRequest(HoldingsPath(portfolioId), Some(HoldingBody(propertyId))))
  }

  /** `removePropertyFromPortfolio`: deletes the holding's path; failures are re-thrown. */
  function RemovePropertyFromPortfolio(send: Request -> Outcome<Json>, portfolioId: string, propertyId: string)
    : (r: Outcome<Json>)
    ensures r.Err? <==> send(DeleteRequest(HoldingPath(portfolioId, propertyId))).Err?
    ensures r == send(DeleteRequest(HoldingPath(portfolioId, propertyId)))
  {
    send(DeleteRequest(HoldingPath(portfolioId, propertyId)))
  }

  /** `getPortfolioPerformance`: `timeframe` defaults to `all`; a failure gives `{ data: {} }`. */
  function GetPortfolioPerformance(send: Request -> Outcome<Json>, portfolioId: string, timeframe: string := "all")
    : (r: Outcome<Json>)
    ensures r.Ok?
    ensures send(GetRequest(PerformancePath(portfolioId), map["timeframe" := JStr(timeframe)])).Ok? ==>
              r == send(GetRequest(PerformancePath(portfolioId), map["timeframe" := JStr(timeframe)]))
    ensures send(GetRequest(PerformancePath(portfolioId), map["timeframe" := JStr(timeframe)])).Err? ==>
              r.value == EmptyData
  {
    Recover(send(GetRequest(PerformancePath(portfolioId), map["timeframe" := JStr(timeframe)])), EmptyData)
  }

  /** Without an explicit timeframe the performance request asks for `all`. */
  lemma PerformanceDefaultsToAll(send: Request -> Outcome<Json>, portfolioId: string)
    ensures GetPortfolioPerformance(send, portfolioId) == GetPortfolioPerformance(send, portfolioId, "all")
  {
  }

  /**
   * The path a holding is removed from is the path it was added to, followed
   * by the property id; for slash-free ids its last segment is that id.
   */
  lemma RemovePathExtendsAddPath(portfolioId: string, propertyId: string)
    ensures HoldingPath(portfolioId, propertyId) == HoldingsPath(portfolioId) + "/" + propertyId
    ensures '/' !in propertyId ==> LastSegment(HoldingPath(portfolioId, propertyId)) == propertyId
  {
    if '/' !in propertyId {
      LastSegmentOfPath(HoldingsPath(portfolioId), propertyId);
    }
  }

  /** For slash-free ids, different (portfolio, property) pairs are removed through different paths. */
  lemma HoldingPathInjective(p1: string, q1: string, p2: string, q2: string)
    requires '/' !in p1 && '/' !in q1 && '/' !in p2 && '/' !in q2
    requires HoldingPath(p1, q1) == HoldingPath(p2, q2)
    ensures p1 == p2 && q1 == q2
  {
    var s1 := Split(HoldingPath(p1, q1), '/');
    assert s1[2] == p1 && s1[4] == q1;
    var s2 := Split(HoldingPath(p2, q2), '/');
    assert s2[2] == p2 && s2[4] == q2;
  }

  /** No read operation of the service fails, whatever the client does. */
  lemma PortfolioReadsNeverFail(send: Request -> Outcome<Json>, params: map<string, Json>, portfolioId: string,
                                timeframe: string)
    ensures GetPortfolios(send, params).Ok?
    ensures GetPortfolioDetail(send, portfolioId).Ok?
    ensures GetPortfolioPerformance(send, portfolioId, timeframe).Ok?
  {
  }
}
