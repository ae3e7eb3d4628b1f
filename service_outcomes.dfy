/**
 * The shape every read method of the services takes around its client call
 * (a write re-throws, so its result is the call's outcome as it is), and the
 * paginated-list fallback that three of them share.
 */
module ServiceOutcomes {
  import opened Wrappers
  import opened JsonValues
  import opened ApiClientModel

  /** `try { return await call } catch { return fallback }`: a read never fails. */
  function Recover(o: Outcome<Json>, fallback: Json): (r: Outcome<Json>)
    ensures r.Ok?
    ensures o.Ok? ==> r == o
    ensures o.Err? ==> r.value == fallback
  {
    match o
    case Ok(_) => o
    case Err(_) => Ok(fallback)
  }

  /** `v.data[listKey]`, when `v` has that shape. */
  function ListItems(v: Json, listKey: string): Option<seq<Json>>
  {
    if v.JObj? && "data" in v.fields && v.fields["data"].JObj? && listKey in v.fields["data"].fields
       && v.fields["data"].fields[listKey].JArr?
    then Some(v.fields["data"].fields[listKey].items)
    else None
  }

  /** `v.data.pagination[key]`, when `v` has that shape. */
  function PaginationField(v: Json, key: string): Option<Json>
  {
    if v.JObj? && "data" in v.fields && v.fields["data"].JObj? && "pagination" in v.fields["data"].fields
       && v.fields["data"].fields["pagination"].JObj? && key in v.fields["data"].fields["pagination"].fields
    then Some(v.fields["data"].fields["pagination"].fields[key])
    else None
  }

  /** A list page whose `pagination.total` is the number of items it carries. */
  predicate PageConsistent(v: Json, listKey: string)
  {
    ListItems(v, listKey).Some? &&
    PaginationField(v, "total") == Some(JNum(|ListItems(v, listKey).value| as real))
  }

  /** `{ data: { <listKey>: [], pagination: { total: 0, limit: 10, offset: 0 } } }` */
  function EmptyPage(listKey: string): (r: Json)
    requires listKey != "pagination"
    ensures ListItems(r, listKey) == Some([])
    ensures PageConsistent(r, listKey)
    ensures PaginationField(r, "limit") == Some(JNum(10.0))
    ensures PaginationField(r, "offset") == Some(JNum(0.0))
  {
    JObj(map["data" := JObj(map[
      listKey := JArr([]),
      "pagination" := JObj(map["total" := JNum(0.0), "limit" := JNum(10.0), "offset" := JNum(0.0)])])])
  }
}
