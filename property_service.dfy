/**
 * The property service. `send` stands for the shared client's call: it maps
 * the request the service builds to the outcome the client delivers.
 */
module PropertyService {
  import opened Wrappers
  import opened JsStrings
  import opened JsonValues
  import opened ApiClientModel
  import opened ServiceOutcomes
  import MockData
  import MockServer

  /** `/properties/${propertyId}` */
  function DetailPath(propertyId: string): (r: string)
    ensures '/' !in propertyId ==> Split(r, '/') == ["", "properties", propertyId]
  {
    var r := "/properties/" + propertyId;
    if '/' !in propertyId then
      assert r == "/" + "properties" + "/" + propertyId;
      SplitTwo("properties", propertyId);
      r
    else r
  }

  /** `/properties/${propertyId}/analysis` */
  function AnalysisPath(propertyId: string): (r: string)
    ensures '/' !in propertyId ==> Split(r, '/') == ["", "properties", propertyId, "analysis"]
    ensures LastSegment(r) == "analysis"
  {
    var r := "/properties/" + propertyId + "/analysis";
    assert r == ("/properties/" + propertyId) + "/" + "analysis";
    LastSegmentOfPath("/properties/" + propertyId, "analysis");
    if '/' !in propertyId then
      assert r == "/" + "properties" + "/" + propertyId + "/" + "analysis";
      SplitThree("properties", propertyId, "analysis");
      r
    else r
  }

  /** `getProperties`: the list the client returned, or an empty first page. */
  function GetProperties(send: Request -> Outcome<Json>, params: map<string, Json>): (r: Outcome<Json>)
    ensures r.Ok?
    ensures send(GetRequest("/properties", params)).Ok? ==> r == send(GetRequest("/properties", params))
    ensures send(GetRequest("/properties", params)).Err? ==>
              ListItems(r.value, "properties") == Some([]) && PageConsistent(r.value, "properties") &&
              PaginationField(r.value, "limit") == Some(JNum(10.0)) &&
              PaginationField(r.value, "offset") == Some(JNum(0.0))
  {
    Recover(send(GetRequest("/properties", params)), EmptyPage("properties"))
  }

  /** `getPropertyDetail`: the record the client returned, or `{ data: {} }`. */
  function GetPropertyDetail(send: Request -> Outcome<Json>, propertyId: string): (r: Outcome<Json>)
    ensures r.Ok?
    ensures send(GetRequest(DetailPath(propertyId), map[])).Ok? ==>
              r == send(GetRequest(DetailPath(propertyId), map[]))
    ensures send(GetRequest(DetailPath(propertyId), map[])).Err? ==> r.value == EmptyData
  {
    Recover(send(GetRequest(DetailPath(propertyId), map[])), EmptyData)
  }

  /** `getPropertyAnalysis`: the analysis the client returned, or `{ data: {} }`. */
  function GetPropertyAnalysis(send: Request -> Outcome<Json>, propertyId: string): (r: Outcome<Json>)
    ensures r.Ok?
    ensures send(GetRequest(AnalysisPath(propertyId), map[])).Ok? ==>
              r == send(GetRequest(AnalysisPath(propertyId), map[]))
    ensures send(GetRequest(AnalysisPath(propertyId), map[])).Err? ==> r.value == EmptyData
  {
    Recover(send(GetRequest(AnalysisPath(propertyId), map[])), EmptyData)
  }

  /** `analyzeProperty`: posts the data as it is; a failure is re-thrown unchanged. */
  function AnalyzeProperty(send: Request -> Outcome<Json>, propertyData: Json): (r: Outcome<Json>)
    ensures r.Err? <==> send(PostRequest("/properties/analyze", Some(propertyData))).Err?
    ensures r.Err? ==> r.failure == send(PostRequest("/properties/analyze", Some(propertyData))).failure
    ensures r.Ok? ==> r.value == send(PostRequest("/properties/analyze", Some(propertyData))).value
  {
    send(PostRequest("/properties/analyze", Some(propertyData)))
  }

  /** No read operation of the service fails, whatever the client does. */
  lemma ReadsNeverFail(send: Request -> Outcome<Json>, params: map<string, Json>, propertyId: string)
    ensures GetProperties(send, params).Ok?
    ensures GetPropertyDetail(send, propertyId).Ok?
    ensures GetPropertyAnalysis(send, propertyId).Ok?
  {
  }

  /**
   * The mock server answers the detail path the service builds with the
   * fixture record carrying the very id that was asked for.
   */
  lemma DetailPathAnsweredWithSameId(propertyId: string)
    requires MockServer.IsPropertyId(propertyId)
    ensures MockServer.PropertyDetailRoute(DetailPath(propertyId)) ==
            Some(MockData.MockPropertyData.(propertyId := propertyId))
  {
    MockServer.DetailRouteEchoesId("", propertyId);
    assert "" + "/properties/" + propertyId == DetailPath(propertyId);
  }

  /** The analysis path is not taken for a detail request: its last segment is `analysis`. */
  lemma AnalysisPathIsNotDetailRoute(propertyId: string)
    ensures MockServer.PropertyDetailRoute(AnalysisPath(propertyId)).None?
  {
    var last := LastSegment(AnalysisPath(propertyId));
    assert last[..5][0] == 'a' != "prop_"[0];
  }
}
