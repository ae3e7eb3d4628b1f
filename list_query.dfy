/**
 * Where the property list handler finds its query. The handler reads the
 * query string of the request URL; the property service, however, hands its
 * search parameters to the client as a separate parameter object, so the URL
 * the handler sees has no query string and no filter ever applies. The
 * evidently intended handler reads the parameter object; the model's list
 * route takes its query from that reading.
 */
module ListQuery {
  import opened Wrappers
  import opened JsStrings
  import opened JsonValues
  import opened ApiClientModel
  import opened MockData
  import opened MockServer

  /** The search a caller of `getProperties` may give; every field is optional. */
  datatype PropertySearch = PropertySearch(
    location: Option<string>,
    propertyType: Option<string>,
    minPrice: Option<real>,
    maxPrice: Option<real>,
    sortBy: Option<string>,
    limit: Option<real>,
    offset: Option<real>)

  /** The parameter object the service passes along: only the fields that were given. */
  function SearchParams(s: PropertySearch): (r: map<string, Json>)
    ensures r.Keys <= {"location", "property_type", "min_price", "max_price", "sort_by", "limit", "offset"}
    ensures "location" in r <==> s.location.Some?
    ensures "property_type" in r <==> s.propertyType.Some?
    ensures "min_price" in r <==> s.minPrice.Some?
    ensures "max_price" in r <==> s.maxPrice.Some?
    ensures "sort_by" in r <==> s.sortBy.Some?
    ensures "limit" in r <==> s.limit.Some?
    ensures "offset" in r <==> s.offset.Some?
    ensures s.location.Some? ==> r["location"] == JStr(s.location.value)
    ensures s.propertyType.Some? ==> r["property_type"] == JStr(s.propertyType.value)
    ensures s.minPrice.Some? ==> r["min_price"] == JNum(s.minPrice.value)
    ensures s.maxPrice.Some? ==> r["max_price"] == JNum(s.maxPrice.value)
    ensures s.sortBy.Some? ==> r["sort_by"] == JStr(s.sortBy.value)
    ensures s.limit.Some? ==> r["limit"] == JNum(s.limit.value)
    ensures s.offset.Some? ==> r["offset"] == JNum(s.offset.value)
  {
    var m1 := PutGiven(map[], "location", StrOf(s.location));
    var m2 := PutGiven(m1, "property_type", StrOf(s.propertyType));
    var m3 := PutGiven(m2, "min_price", NumOf(s.minPrice));
    var m4 := PutGiven(m3, "max_price", NumOf(s.maxPrice));
    var m5 := PutGiven(m4, "sort_by", StrOf(s.sortBy));
    var m6 := PutGiven(m5, "limit", NumOf(s.limit));
    PutGiven(m6, "offset", NumOf(s.offset))
  }

  function StrOf(o: Option<string>): (r: Option<Json>)
    ensures r.Some? <==> o.Some?
    ensures o.Some? ==> r.value == JStr(o.value)
  {
    if o.Some? then Some(JStr(o.value)) else None
  }

  function NumOf(o: Option<real>): (r: Option<Json>)
    ensures r.Some? <==> o.Some?
    ensures o.Some? ==> r.value == JNum(o.value)
  {
    if o.Some? then Some(JNum(o.value)) else None
  }

  /** `m` with `key` set when a value is given, and unchanged otherwise. */
  function PutGiven(m: map<string, Json>, key: string, v: Option<Json>): (r: map<string, Json>)
    ensures r.Keys == if v.Some? then m.Keys + {key} else m.Keys
    ensures v.Some? ==> r[key] == v.value
    ensures forall k :: k in m && k != key ==> r[k] == m[k]
  {
    if v.Some? then m[key := v.value] else m
  }

  // ---- As written: the query string of the URL -------------------------------------------

  /** `url.split('?')[1]`: the text between the first `?` and the next one (or the end), or nothing when there is no `?`. */
  function SearchOf(url: string): (r: Option<string>)
    ensures '?' !in url ==> r == None
  {
    var parts := Split(url, '?');
    if '?' !in url then SplitNoSeparator(url, '?'); None
    else if |parts| >= 2 then Some(parts[1]) else None
  }

  /** The value of the first `name=value` pair for `name`; a pair without `=` has the empty value. */
  function FirstValue(pairs: seq<string>, name: string): Option<string>
  {
    if pairs == [] then None
    else
      var kv := Split(pairs[0], '=');
      if kv[0] == name then Some(Join(kv[1..], '=')) else FirstValue(pairs[1..], name)
  }

  /** `new URLSearchParams(search).get(name)`, without percent-decoding. */
  function SearchGet(search: Option<string>, name: string): (r: Option<string>)
    ensures search.None? ==> r == None
  {
    if search.None? then None else FirstValue(Split(search.value, '&'), name)
  }

  /** `Number(value)` behind a truthiness test: an absent or empty value skips the filter. */
  function NumberParam(value: Option<string>, toNumber: string -> Numeric): Option<Numeric>
  {
    if Given(value) then Some(toNumber(value.value)) else None
  }

  /** The query the handler reads, as written: every parameter from the URL's query string. */
  function UrlQuery(url: string, toNumber: string -> Numeric): (q: Query)
    ensures '?' !in url ==> q == Query(None, None, None, None, None)
  {
    var search := SearchOf(url);
    Query(SearchGet(search, "location"), SearchGet(search, "property_type"),
          NumberParam(SearchGet(search, "min_price"), toNumber),
          NumberParam(SearchGet(search, "max_price"), toNumber),
          SearchGet(search, "sort_by"))
  }

  /**
   * As written, a search sent through the property service reaches the
   * handler as no query at all: every fixture is selected and the default
   * order applies, whatever the caller asked for.
   */
  lemma ServiceSearchIsIgnored(s: PropertySearch, toNumber: string -> Numeric)
    ensures UrlQuery(GetRequest("/properties", SearchParams(s)).path, toNumber) ==
            Query(None, None, None, None, None)
    ensures Selected(UrlQuery(GetRequest("/properties", SearchParams(s)).path, toNumber)) == MockProperties
  {
    var q := Query(None, None, None, None, None);
    assert '?' !in "/properties";
    FilterKeepsAll(MockProperties, p => Matches(q, p));
  }

  /**
   * The discrepancy on one input: a search for Springfield returns the first
   * fixture, whose city (Anytown) does not contain it.
   */
  lemma SpringfieldSearchReturnsAnytown(toNumber: string -> Numeric)
    ensures var q := UrlQuery(GetRequest("/properties", SearchParams(
                         PropertySearch(Some("Springfield"), None, None, None, None, None, None))).path, toNumber);
            MockProperties[0] in Selected(q)
    ensures !Includes(Lower(MockProperties[0].address.city), Lower("Springfield"))
  {
    ServiceSearchIsIgnored(PropertySearch(Some("Springfield"), None, None, None, None, None, None), toNumber);
    IncludesAt(Lower(MockProperties[0].address.city), Lower("Springfield"));
  }

  // ---- Corrected: the parameter object ---------------------------------------------------

  /** A string parameter of the parameter object; a value of another type is not read. */
  function StringParam(params: map<string, Json>, name: string): (r: Option<string>)
    ensures r.Some? <==> name in params && params[name].JStr?
    ensures r.Some? ==> params[name] == JStr(r.value)
  {
    if name in params && params[name].JStr? then Some(params[name].s) else None
  }

  /** A numeric parameter behind the handler's truthiness test: zero, empty and absent skip it. */
  function NumericParam(params: map<string, Json>, name: string, toNumber: string -> Numeric): (r: Option<Numeric>)
    ensures name in params && params[name].JNum? && params[name].n != 0.0 ==> r == Some(Finite(params[name].n))
    ensures name !in params ==> r == None
  {
    if name !in params then None
    else match params[name]
      case JNum(n) => if n != 0.0 then Some(Finite(n)) else None
      case JStr(s) => if s != "" then Some(toNumber(s)) else None
      case _ => None
  }

  /** The query the evidently intended handler reads: the parameter object the client was given. */
  function ParamsQuery(params: map<string, Json>, toNumber: string -> Numeric): Query
  {
    Query(StringParam(params, "location"), StringParam(params, "property_type"),
          NumericParam(params, "min_price", toNumber), NumericParam(params, "max_price", toNumber),
          StringParam(params, "sort_by"))
  }

  /**
   * Read from the parameter object, a search reaches the handler intact: the
   * location and sort key as given, and every non-zero price bound as a bound.
   */
  lemma ParamsQueryKeepsSearch(s: PropertySearch, toNumber: string -> Numeric)
    ensures ParamsQuery(SearchParams(s), toNumber).location == s.location
    ensures ParamsQuery(SearchParams(s), toNumber).sortBy == s.sortBy
    ensures s.minPrice.Some? && s.minPrice.value != 0.0 ==>
              ParamsQuery(SearchParams(s), toNumber).minPrice == Some(Finite(s.minPrice.value))
    ensures s.maxPrice.Some? && s.maxPrice.value != 0.0 ==>
              ParamsQuery(SearchParams(s), toNumber).maxPrice == Some(Finite(s.maxPrice.value))
  {
    var p := SearchParams(s);
    assert s.location.Some? ==> p["location"] == JStr(s.location.value);
    assert s.sortBy.Some? ==> p["sort_by"] == JStr(s.sortBy.value);
    assert s.minPrice.Some? ==> p["min_price"] == JNum(s.minPrice.value);
    assert s.maxPrice.Some? ==> p["max_price"] == JNum(s.maxPrice.value);
  }

  /**
   * With the corrected reading, every listing selected for a search lies in a
   * city containing its location and within its non-zero price bounds.
   */
  lemma SearchIsHonoured(s: PropertySearch, toNumber: string -> Numeric)
    ensures forall p :: p in Selected(ParamsQuery(SearchParams(s), toNumber)) ==>
              && (Given(s.location) ==> Includes(Lower(p.address.city), Lower(s.location.value)))
              && (s.minPrice.Some? && s.minPrice.value != 0.0 ==> p.price >= s.minPrice.value)
              && (s.maxPrice.Some? && s.maxPrice.value != 0.0 ==> p.price <= s.maxPrice.value)
  {
    ParamsQueryKeepsSearch(s, toNumber);
  }

  /**
   * The list route with the corrected reading: the reply holds exactly the
   * fixtures matching the query read from the parameter object, with a
   * consistent total.
   */
  method ListFromParams(params: map<string, Json>, toNumber: string -> Numeric) returns (r: ListReply)
    ensures forall p :: p in r.properties <==> p in MockProperties && Matches(ParamsQuery(params, toNumber), p)
    ensures multiset(r.properties) == multiset(Selected(ParamsQuery(params, toNumber)))
    ensures r.pagination == Pagination(|r.properties|, 10, 0)
  {
    r := ListProperties(ParamsQuery(params, toNumber));
  }
}
