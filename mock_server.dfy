/**
 * The development mock server's property routes: the filtered, sorted
 * property list and the property detail route that echoes the requested id.
 * Query-string parsing is not modelled; the parameters arrive already read.
 */
module MockServer {
  import opened Wrappers
  import opened JsStrings
  import opened MockData

  /** `Number(s)` for a non-empty parameter: a finite number or `NaN`. */
  datatype Numeric = Finite(v: real) | NaN

  /**
   * The query parameters of `GET /properties`. For the string parameters,
   * `None` is an absent parameter and `Some("")` an empty one; for the numeric
   * ones `None` stands for absent or empty (both skip the filter).
   */
  datatype Query = Query(
    location: Option<string>,
    propertyType: Option<string>,
    minPrice: Option<Numeric>,
    maxPrice: Option<Numeric>,
    sortBy: Option<string>)

  datatype Pagination = Pagination(total: int, limit: int, offset: int)

  datatype ListReply = ListReply(properties: seq<Listing>, pagination: Pagination)

  /** A string parameter is truthy: present and non-empty. */
  predicate Given(p: Option<string>)
  {
    p.Some? && p.value != ""
  }

  /** The location filter: the city contains the location, ignoring case. */
  predicate CityPasses(q: Query, p: Listing)
  {
    Given(q.location) ==> Includes(Lower(p.address.city), Lower(q.location.value))
  }

  /** `price >= Number(min_price)`; every comparison with `NaN` is false. */
  predicate MinPasses(q: Query, p: Listing)
  {
    q.minPrice.Some? ==> q.minPrice.value.Finite? && p.price >= q.minPrice.value.v
  }

  /** `price <= Number(max_price)`. */
  predicate MaxPasses(q: Query, p: Listing)
  {
    q.maxPrice.Some? ==> q.maxPrice.value.Finite? && p.price <= q.maxPrice.value.v
  }

  /** A listing passes every supplied filter; `property_type` filters nothing. */
  predicate Matches(q: Query, p: Listing)
  {
    CityPasses(q, p) && MinPasses(q, p) && MaxPasses(q, p)
  }

  /** `s.filter(f)`: the elements satisfying `f`, in their order. */
  function Filter<T(!new)>(s: seq<T>, f: T -> bool): (r: seq<T>)
    ensures |r| <= |s|
    ensures forall x :: x in r <==> x in s && f(x)
  {
    if s == [] then []
    else
      var rest := Filter(s[1..], f);
      assert s == [s[0]] + s[1..];
      if f(s[0]) then [s[0]] + rest else rest
  }

  /** Filtering by `f` and then by `g` is filtering by their conjunction. */
  lemma {:induction false} FilterTwice<T(!new)>(s: seq<T>, f: T -> bool, g: T -> bool, h: T -> bool)
    requires forall x :: h(x) == (f(x) && g(x))
    ensures Filter(Filter(s, f), g) == Filter(s, h)
  {
    if s != [] {
      FilterTwice(s[1..], f, g, h);
      if f(s[0]) {
        var t := [s[0]] + Filter(s[1..], f);
        assert t[0] == s[0] && t[1..] == Filter(s[1..], f);
      }
    }
  }

  /** A filter that every element passes changes nothing. */
  lemma {:induction false} FilterKeepsAll<T(!new)>(s: seq<T>, f: T -> bool)
    requires forall x :: x in s ==> f(x)
    ensures Filter(s, f) == s
  {
    if s != [] {
      FilterKeepsAll(s[1..], f);
      assert s == [s[0]] + s[1..];
    }
  }

  /** The fixture listings that pass every supplied filter, in declaration order. */
  function Selected(q: Query): seq<Listing>
  {
    Filter(MockProperties, p => Matches(q, p))
  }

  /** The orders `sort_by` can ask for. */
  datatype SortOrder = ByAiScore | ByPriceAsc | ByPriceDesc

  /**
   * `params.get('sort_by') || 'ai_score'` followed by the comparison chain:
   * an absent or empty value means `ai_score`; a value that is none of the
   * three keys leaves the list unsorted.
   */
  function SortOrderOf(sortBy: Option<string>): (r: Option<SortOrder>)
    ensures !Given(sortBy) ==> r == Some(ByAiScore)
    ensures Given(sortBy) ==>
              (r == Some(ByAiScore) <==> sortBy.value == "ai_score") &&
              (r == Some(ByPriceAsc) <==> sortBy.value == "price_asc") &&
              (r == Some(ByPriceDesc) <==> sortBy.value == "price_desc")
  {
    var key := if Given(sortBy) then sortBy.value else "ai_score";
    if key == "price_asc" then Some(ByPriceAsc)
    else if key == "price_desc" then Some(ByPriceDesc)
    else if key == "ai_score" then Some(ByAiScore)
    else None
  }

  /** The comparator's key: `a.price - b.price` sorts by price, `b.x - a.x` by minus `x`. */
  function Rank(o: SortOrder, p: Listing): real
  {
    match o
    case ByAiScore => -(p.aiScore as real)
    case ByPriceAsc => p.price
    case ByPriceDesc => -p.price
  }

  /** Keys never decrease along `s`. */
  predicate SortedBy(s: seq<Listing>, key: Listing -> real)
  {
    forall k, l :: 0 <= k < l < |s| ==> key(s[k]) <= key(s[l])
  }

  /** Keys strictly increase along `s`. */
  predicate StrictlySortedBy(s: seq<Listing>, key: Listing -> real)
  {
    forall k, l :: 0 <= k < l < |s| ==> key(s[k]) < key(s[l])
  }

  /** Exchanges two neighbouring elements. */
  method SwapDown(a: array<Listing>, j: int)
    requires 0 < j < a.Length
    modifies a
    ensures a[j - 1] == old(a[j]) && a[j] == old(a[j - 1])
    ensures forall m :: 0 <= m < a.Length && m != j - 1 && m != j ==> a[m] == old(a[m])
    ensures multiset(a[..]) == multiset(old(a[..]))
  {
    a[j - 1], a[j] := a[j], a[j - 1];
  }

  /**
   * One insertion step: the element at `i` sinks by adjacent swaps past every
   * larger key, so the sorted prefix grows by one.
   */
  method InsertStep(a: array<Listing>, i: int, key: Listing -> real)
    requires 0 <= i < a.Length
    requires forall k, l :: 0 <= k < l < i ==> key(a[k]) <= key(a[l])
    modifies a
    ensures forall k, l :: 0 <= k < l <= i ==> key(a[k]) <= key(a[l])
    ensures multiset(a[..]) == multiset(old(a[..]))
  {
    var j := i;
    while j > 0 && key(a[j - 1]) > key(a[j])
      invariant 0 <= j <= i
      invariant forall k, l :: 0 <= k < l <= i && k != j && l != j ==> key(a[k]) <= key(a[l])
      invariant forall l :: j < l <= i ==> key(a[j]) < key(a[l])
      invariant multiset(a[..]) == multiset(old(a[..]))
    {
      SwapDown(a, j);
      j := j - 1;
    }
  }

  /**
   * `Array.prototype.sort` with the comparator `(x, y) => key(x) - key(y)`,
   * in place: an insertion sort by adjacent swaps, which like the built-in
   * sort is stable.
   */
  method SortInPlace(a: array<Listing>, key: Listing -> real)
    modifies a
    ensures SortedBy(a[..], key)
    ensures multiset(a[..]) == multiset(old(a[..]))
  {
    var i := 0;
    while i < a.Length
      invariant 0 <= i <= a.Length
      invariant forall k, l :: 0 <= k < l < i ==> key(a[k]) <= key(a[l])
      invariant multiset(a[..]) == multiset(old(a[..]))
    {
      InsertStep(a, i, key);
      i := i + 1;
    }
  }

  /** Dropping the first element keeps a strict order. */
  lemma StrictTail(s: seq<Listing>, key: Listing -> real)
    requires s != [] && StrictlySortedBy(s, key)
    ensures StrictlySortedBy(s[1..], key)
    ensures forall x :: x in s[1..] ==> key(s[0]) < key(x)
  {
    forall k, l | 0 <= k < l < |s[1..]| ensures key(s[1..][k]) < key(s[1..][l]) {
      assert s[1..][k] == s[k + 1] && s[1..][l] == s[l + 1];
    }
    forall x | x in s[1..] ensures key(s[0]) < key(x) {
      var m :| 0 <= m < |s[1..]| && s[1..][m] == x;
      assert s[m + 1] == x;
    }
  }

  /** An element below everything in a strictly sorted list can be put in front of it. */
  lemma StrictCons(x: Listing, rest: seq<Listing>, key: Listing -> real)
    requires StrictlySortedBy(rest, key)
    requires forall y :: y in rest ==> key(x) < key(y)
    ensures StrictlySortedBy([x] + rest, key)
  {
    var r := [x] + rest;
    forall k, l | 0 <= k < l < |r| ensures key(r[k]) < key(r[l]) {
      assert r[l] == rest[l - 1];
      if k > 0 {
        assert r[k] == rest[k - 1];
      } else {
        assert rest[l - 1] in rest;
      }
    }
  }

  /** A subsequence of a strictly sorted sequence is strictly sorted. */
  lemma {:induction false} FilterKeepsStrictOrder(s: seq<Listing>, f: Listing -> bool, key: Listing -> real)
    requires StrictlySortedBy(s, key)
    ensures StrictlySortedBy(Filter(s, f), key)
  {
    if s != [] {
      StrictTail(s, key);
      FilterKeepsStrictOrder(s[1..], f, key);
      var rest := Filter(s[1..], f);
      if f(s[0]) {
        assert forall y :: y in rest ==> y in s[1..];
        StrictCons(s[0], rest, key);
      }
    }
  }

  /** Dropping the first element keeps an order. */
  lemma SortedTail(t: seq<Listing>, key: Listing -> real)
    requires t != [] && SortedBy(t, key)
    ensures SortedBy(t[1..], key)
  {
    forall a, b | 0 <= a < b < |t[1..]| ensures key(t[1..][a]) <= key(t[1..][b]) {
      assert t[1..][a] == t[a + 1] && t[1..][b] == t[b + 1];
    }
  }

  /** Two sequences with the same elements and the same head have the same remaining elements. */
  lemma MultisetTail(s: seq<Listing>, t: seq<Listing>)
    requires s != [] && t != [] && s[0] == t[0]
    requires multiset(s) == multiset(t)
    ensures multiset(s[1..]) == multiset(t[1..])
  {
    assert s == [s[0]] + s[1..] && t == [t[0]] + t[1..];
    assert multiset(s) == multiset{s[0]} + multiset(s[1..]);
    assert multiset(t) == multiset{t[0]} + multiset(t[1..]);
    assert multiset(s[1..]) == multiset(s) - multiset{s[0]};
    assert multiset(t[1..]) == multiset(t) - multiset{t[0]};
  }

  /** A sorted permutation of a strictly sorted sequence starts with the same element. */
  lemma SameHead(s: seq<Listing>, t: seq<Listing>, key: Listing -> real)
    requires s != []
    requires StrictlySortedBy(s, key)
    requires SortedBy(t, key)
    requires multiset(s) == multiset(t)
    ensures t != [] && t[0] == s[0]
  {
    assert s[0] in multiset(t);
    var k :| 0 <= k < |t| && t[k] == s[0];
    assert t[0] in multiset(s);
    var m :| 0 <= m < |s| && s[m] == t[0];
    assert key(t[0]) <= key(t[k]);
  }

  /**
   * Sorting cannot reorder a strictly sorted sequence: a sorted permutation of
   * it is the sequence itself.
   */
  lemma {:induction false} SortedPermutationIsUnique(s: seq<Listing>, t: seq<Listing>, key: Listing -> real)
    requires StrictlySortedBy(s, key)
    requires SortedBy(t, key)
    requires multiset(s) == multiset(t)
    ensures s == t
  {
    if s == [] {
      assert |t| == |multiset(t)| == 0;
    } else {
      SameHead(s, t, key);
      StrictTail(s, key);
      SortedTail(t, key);
      MultisetTail(s, t);
      SortedPermutationIsUnique(s[1..], t[1..], key);
      assert s == [s[0]] + s[1..] && t == [t[0]] + t[1..];
    }
  }

  /** `mockProperties` is in strictly decreasing score order. */
  lemma FixturesInScoreOrder()
    ensures StrictlySortedBy(MockProperties, p => Rank(ByAiScore, p))
  {
    FixtureCitiesAndScores();
  }

  /** The filter stage: successive `filter` calls, one per supplied parameter. */
  method FilterFixtures(q: Query) returns (filtered: seq<Listing>)
    ensures filtered == Selected(q)
  {
    filtered := MockProperties;
    if Given(q.location) {
      filtered := Filter(filtered, p => CityPasses(q, p));
    } else {
      FilterKeepsAll(MockProperties, p => CityPasses(q, p));
    }
    if q.minPrice.Some? {
      filtered := Filter(filtered, p => MinPasses(q, p));
    } else {
      FilterKeepsAll(filtered, p => MinPasses(q, p));
    }
    FilterTwice(MockProperties, p => CityPasses(q, p), p => MinPasses(q, p),
                p => CityPasses(q, p) && MinPasses(q, p));
    if q.maxPrice.Some? {
      filtered := Filter(filtered, p => MaxPasses(q, p));
    } else {
      FilterKeepsAll(filtered, p => MaxPasses(q, p));
    }
    FilterTwice(MockProperties, p => CityPasses(q, p) && MinPasses(q, p), p => MaxPasses(q, p),
                p => Matches(q, p));
  }

  /** The sort stage: the filtered list, reordered in place when a known key was asked for. */
  method SortStage(s: seq<Listing>, order: Option<SortOrder>) returns (t: seq<Listing>)
    ensures multiset(t) == multiset(s)
    ensures order.Some? ==> SortedBy(t, p => Rank(order.value, p))
    ensures order.None? ==> t == s
  {
    var a := new Listing[|s|](i requires 0 <= i < |s| => s[i]);
    assert a[..] == s;
    if order.Some? {
      SortInPlace(a, p => Rank(order.value, p));
    }
    t := a[..];
  }

  /** What a `Rank` order says about the listing fields. */
  lemma RankOrderMeaning(t: seq<Listing>, o: SortOrder)
    requires SortedBy(t, p => Rank(o, p))
    ensures o == ByAiScore ==> forall i, j :: 0 <= i < j < |t| ==> t[i].aiScore >= t[j].aiScore
    ensures o == ByPriceAsc ==> forall i, j :: 0 <= i < j < |t| ==> t[i].price <= t[j].price
    ensures o == ByPriceDesc ==> forall i, j :: 0 <= i < j < |t| ==> t[i].price >= t[j].price
  {
    forall i, j | 0 <= i < j < |t|
      ensures Rank(o, t[i]) <= Rank(o, t[j])
    {
    }
  }

  /**
   * The `GET /properties` handler. It narrows a copy of the fixture list by
   * the supplied filters, sorts the copy in place by the requested key and
   * reports its length as the total; `limit` and `offset` are fixed.
   */
  method ListProperties(q: Query) returns (r: ListReply)
    ensures forall p :: p in r.properties <==> p in MockProperties && Matches(q, p)
    ensures multiset(r.properties) == multiset(Selected(q))
    ensures SortOrderOf(q.sortBy) == Some(ByAiScore) ==>
              forall i, j :: 0 <= i < j < |r.properties| ==>
                r.properties[i].aiScore >= r.properties[j].aiScore
    ensures SortOrderOf(q.sortBy) == Some(ByPriceAsc) ==>
              forall i, j :: 0 <= i < j < |r.properties| ==> r.properties[i].price <= r.properties[j].price
    ensures SortOrderOf(q.sortBy) == Some(ByPriceDesc) ==>
              forall i, j :: 0 <= i < j < |r.properties| ==> r.properties[i].price >= r.properties[j].price
    ensures SortOrderOf(q.sortBy) == None ==> r.properties == Selected(q)
    ensures SortOrderOf(q.sortBy) == Some(ByAiScore) ==> r.properties == Selected(q)
    ensures r.pagination == Pagination(|r.properties|, 10, 0)
  {
    var filtered := FilterFixtures(q);
    var order := SortOrderOf(q.sortBy);
    var sorted := SortStage(filtered, order);
    r := ListReply(sorted, Pagination(|sorted|, 10, 0));
    SameElements(sorted, filtered);
    InRequestedOrder(q, sorted);
  }

  /** The sort stage's result, read in terms of the listing fields and the fixture order. */
  lemma InRequestedOrder(q: Query, t: seq<Listing>)
    requires multiset(t) == multiset(Selected(q))
    requires SortOrderOf(q.sortBy).Some? ==> SortedBy(t, p => Rank(SortOrderOf(q.sortBy).value, p))
    requires SortOrderOf(q.sortBy).None? ==> t == Selected(q)
    ensures SortOrderOf(q.sortBy) == Some(ByAiScore) ==>
              forall i, j :: 0 <= i < j < |t| ==> t[i].aiScore >= t[j].aiScore
    ensures SortOrderOf(q.sortBy) == Some(ByPriceAsc) ==>
              forall i, j :: 0 <= i < j < |t| ==> t[i].price <= t[j].price
    ensures SortOrderOf(q.sortBy) == Some(ByPriceDesc) ==>
              forall i, j :: 0 <= i < j < |t| ==> t[i].price >= t[j].price
    ensures SortOrderOf(q.sortBy) == Some(ByAiScore) ==> t == Selected(q)
  {
    var order := SortOrderOf(q.sortBy);
    if order.Some? {
      RankOrderMeaning(t, order.value);
      if order.value == ByAiScore {
        DefaultOrderIsDeclarationOrder(q, t);
      }
    }
  }

  /** Lists with the same multiset hold the same elements. */
  lemma SameElements(s: seq<Listing>, t: seq<Listing>)
    requires multiset(s) == multiset(t)
    ensures forall p :: p in s <==> p in t
  {
    forall p ensures p in s <==> p in t {
      assert p in s <==> p in multiset(s);
    }
  }

  /** Sorting the selected fixtures by score gives them back in declaration order. */
  lemma DefaultOrderIsDeclarationOrder(q: Query, sorted: seq<Listing>)
    requires multiset(sorted) == multiset(Selected(q))
    requires SortedBy(sorted, p => Rank(ByAiScore, p))
    ensures sorted == Selected(q)
  {
    FixturesInScoreOrder();
    FilterKeepsStrictOrder(MockProperties, p => Matches(q, p), p => Rank(ByAiScore, p));
    SortedPermutationIsUnique(Selected(q), sorted, p => Rank(ByAiScore, p));
  }

  predicate IsDigit(ch: char)
  {
    '0' <= ch <= '9'
  }

  /** A property id the detail route accepts: `prop_` followed by one or more digits. */
  predicate IsPropertyId(s: string)
  {
    |s| > 5 && s[..5] == "prop_" && forall k :: 5 <= k < |s| ==> IsDigit(s[k])
  }

  /** `/\/properties\/prop_\d+$/`: the URL ends with `/properties/` and a property id. */
  predicate IsDetailUrl(url: string)
  {
    var id := LastSegment(url);
    var tail := "/properties/" + id;
    IsPropertyId(id) && |tail| <= |url| && url[|url| - |tail|..] == tail
  }

  /**
   * The property detail route: for a URL it answers, the fixture detail
   * record with only `property_id` replaced by the URL's last segment.
   */
  function PropertyDetailRoute(url: string): (r: Option<PropertyDetail>)
    ensures r.Some? <==> IsDetailUrl(url)
    ensures r.Some? ==> r.value.propertyId == LastSegment(url)
    ensures r.Some? ==> r.value.(propertyId := MockPropertyData.propertyId) == MockPropertyData
  {
    if IsDetailUrl(url) then Some(MockPropertyData.(propertyId := LastSegment(url))) else None
  }

  /** Requesting `/properties/<id>` for an accepted id gets that id back in the record. */
  lemma DetailRouteEchoesId(prefix: string, id: string)
    requires IsPropertyId(id)
    ensures PropertyDetailRoute(prefix + "/properties/" + id) == Some(MockPropertyData.(propertyId := id))
  {
    var url := prefix + "/properties/" + id;
    assert '/' !in id by {
      forall k | 0 <= k < |id| ensures id[k] != '/' {
        if k >= 5 {
          assert IsDigit(id[k]);
        } else {
          assert id[k] == "prop_"[k];
        }
      }
    }
    assert url == (prefix + "/properties") + "/" + id;
    LastSegmentOfPath(prefix + "/properties", id);
    var tail := "/properties/" + id;
    assert url == prefix + tail;
    assert url[|url| - |tail|..] == tail;
  }
}
