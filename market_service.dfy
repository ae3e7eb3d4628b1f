/**
 * The market service: five reads, each of which falls back to a fixed
 * answer, so none of them ever fails. `compareMarkets` sends the market names
 * as one comma-joined parameter.
 */
module MarketService {
  import opened Wrappers
  import opened JsStrings
  import opened JsonValues
  import opened ApiClientModel
  import opened ServiceOutcomes

  /** `{ data: { <listKey>: [] } }` */
  function EmptyList(listKey: string): (r: Json)
    ensures ListItems(r, listKey) == Some([])
    ensures r.fields["data"].fields.Keys == {listKey}
  {
    JObj(map["data" := JObj(map[listKey := JArr([])])])
  }

  /** `getMarketTrends`: the trends the client returned, or an empty `market_trends` list. */
  function GetMarketTrends(send: Request -> Outcome<Json>): (r: Outcome<Json>)
    ensures r.Ok?
    ensures send(GetRequest("/markets/trends", map[])).Ok? ==> r == send(GetRequest("/markets/trends", map[]))
    ensures send(GetRequest("/markets/trends", map[])).Err? ==> ListItems(r.value, "market_trends") == Some([])
  {
    Recover(send(GetRequest("/markets/trends", map[])), EmptyList("market_trends"))
  }

  /** `getEmergingMarkets`: the markets the client returned, or an empty `emerging_markets` list. */
  function GetEmergingMarkets(send: Request -> Outcome<Json>): (r: Outcome<Json>)
    ensures r.Ok?
    ensures send(GetRequest("/markets/emerging", map[])).Ok? ==> r == send(GetRequest("/markets/emerging", map[]))
    ensures send(GetRequest("/markets/emerging", map[])).Err? ==>
              ListItems(r.value, "emerging_markets") == Some([])
  {
    Recover(send(GetRequest("/markets/emerging", map[])), EmptyList("emerging_markets"))
  }

  /** The query of a request about one market. */
  function PlaceParams(city: string, state: string): (r: map<string, Json>)
    ensures r.Keys == {"city", "state"}
    ensures r["city"] == JStr(city) && r["state"] == JStr(state)
  {
    map["city" := JStr(city), "state" := JStr(state)]
  }

  /** `getMarketDetail`: asks with `{ city, state }`; a failure gives `{ data: {} }`. */
  function GetMarketDetail(send: Request -> Outcome<Json>, city: string, state: string): (r: Outcome<Json>)
    ensures r.Ok?
    ensures send(GetRequest("/markets/detail", PlaceParams(city, state))).Ok? ==>
              r == send(GetRequest("/markets/detail", PlaceParams(city, state)))
    ensures send(GetRequest("/markets/detail", PlaceParams(city, state))).Err? ==> r.value == EmptyData
  {
    Recover(send(GetRequest("/markets/detail", PlaceParams(city, state))), EmptyData)
  }

  /** The query of `compareMarkets`: one `markets` parameter, the names joined with commas. */
  function CompareParams(markets: seq<string>): (r: map<string, Json>)
    ensures r.Keys == {"markets"} && r["markets"].JStr?
    ensures |markets| >= 1 && (forall k :: 0 <= k < |markets| ==> ',' !in markets[k]) ==>
              Split(r["markets"].s, ',') == markets
  {
    var r := map["markets" := JStr(Join(markets, ','))];
    if |markets| >= 1 && (forall k :: 0 <= k < |markets| ==> ',' !in markets[k]) then
      SplitJoin(markets, ',');
      r
    else r
  }

  /** `compareMarkets`: asks with the joined names; a failure gives `{ data: {} }`. */
  function CompareMarkets(send: Request -> Outcome<Json>, markets: seq<string>): (r: Outcome<Json>)
    ensures r.Ok?
    ensures send(GetRequest("/markets/compare", CompareParams(markets))).Ok? ==>
              r == send(GetRequest("/markets/compare", CompareParams(markets)))
    ensures send(GetRequest("/markets/compare", CompareParams(markets))).Err? ==> r.value == EmptyData
  {
    Recover(send(GetRequest("/markets/compare", CompareParams(markets))), EmptyData)
  }

  /**
   * The joined parameter loses information only at the edges of the encoding:
   * no names and one empty name both send an empty string, and a name holding
   * a comma reads back as two names.
   */
  lemma CompareParamsCollisions(send: Request -> Outcome<Json>)
    ensures CompareParams([]) == CompareParams([""])
    ensures CompareMarkets(send, []) == CompareMarkets(send, [""])
    ensures CompareParams(["a,b"]) == CompareParams(["a", "b"])
  {
    assert ["a", "b"][1..] == ["b"];
    assert Join(["a", "b"], ',') == "a" + [','] + "b" == "a,b";
    assert Join(["a,b"], ',') == "a,b";
  }

  /** The query of `getMarketForecast`. */
  function ForecastParams(city: string, state: string, timeframe: string): (r: map<string, Json>)
    ensures r.Keys == {"city", "state", "timeframe"}
    ensures r["city"] == JStr(city) && r["state"] == JStr(state) && r["timeframe"] == JStr(timeframe)
  {
    map["city" := JStr(city), "state" := JStr(state), "timeframe" := JStr(timeframe)]
  }

  /** `getMarketForecast`: `timeframe` defaults to `1year`; a failure gives `{ data: {} }`. */
  function GetMarketForecast(send: Request -> Outcome<Json>, city: string, state: string,
                             timeframe: string := "1year"): (r: Outcome<Json>)
    ensures r.Ok?
    ensures send(GetRequest("/markets/forecast", ForecastParams(city, state, timeframe))).Ok? ==>
              r == send(GetRequest("/markets/forecast", ForecastParams(city, state, timeframe)))
    ensures send(GetRequest("/markets/forecast", ForecastParams(city, state, timeframe))).Err? ==>
              r.value == EmptyData
  {
    Recover(send(GetRequest("/markets/forecast", ForecastParams(city, state, timeframe))), EmptyData)
  }

  /** Without an explicit timeframe the forecast asks for `1year`. */
  lemma ForecastDefaultsToOneYear(send: Request -> Outcome<Json>, city: string, state: string)
    ensures GetMarketForecast(send, city, state) == GetMarketForecast(send, city, state, "1year")
    ensures ForecastParams(city, state, "1year")["timeframe"] == JStr("1year")
  {
  }

  /** No operation of the service fails, whatever the client does. */
  lemma MarketCallsNeverFail(send: Request -> Outcome<Json>, city: string, state: string,
                             markets: seq<string>, timeframe: string)
    ensures GetMarketTrends(send).Ok?
    ensures GetEmergingMarkets(send).Ok?
    ensures GetMarketDetail(send, city, state).Ok?
    ensures CompareMarkets(send, markets).Ok?
    ensures GetMarketForecast(send, city, state, timeframe).Ok?
  {
  }
}
