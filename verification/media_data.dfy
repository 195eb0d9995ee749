/** The shapes exchanged with the media catalog service: the query's result
    (`data`), the variables a request carries, and the partial variables the
    page hands to `refetch`. Every field of the result is nullable, as in the
    service's schema. */
module MediaData {
  import opened Optional

  /** One catalog record. Its attributes (title, cover, score, ...) play no
      part in pagination, so only an identifier is kept. */
  datatype Media = Media(id: int)

  /** The two sort keys the home page asks for. */
  datatype MediaSort = TrendingDesc | PopularityDesc

  datatype PageInfo = PageInfo(currentPage: Option<int>, hasNextPage: Option<bool>)

  /** One page of results; individual media entries may themselves be null. */
  datatype Page = Page(media: Option<seq<Option<Media>>>, pageInfo: Option<PageInfo>)

  /** The `data` object of a query result. */
  datatype QueryData = QueryData(page: Option<Page>)

  /** The variables of a catalog request. */
  datatype Variables = Variables(search: Option<string>, page: int, perPage: int, sort: seq<MediaSort>)

  /** Partial variables handed to `refetch`: a field that is present
      overrides the previous request's value, an absent one keeps it. */
  datatype VariablesPatch = VariablesPatch(search: Option<Option<string>>, page: Option<int>)

  /** The variables of the request `refetch(patch)` issues after `vars`. */
  function Apply(vars: Variables, patch: VariablesPatch): (r: Variables)
    ensures r.perPage == vars.perPage && r.sort == vars.sort
    ensures patch.search.None? ==> r.search == vars.search
    ensures patch.page.None? ==> r.page == vars.page
    ensures patch.search.Some? ==> r.search == patch.search.value
    ensures patch.page.Some? ==> r.page == patch.page.value
  {
    Variables(patch.search.GetOr(vars.search), patch.page.GetOr(vars.page), vars.perPage, vars.sort)
  }

  /** The result's media collection, reached through optional chaining; a
      missing result, page or media list reads as the empty collection. */
  function MediaCollection(data: Option<QueryData>): (r: seq<Option<Media>>)
    ensures data.None? || data.value.page.None? ==> r == []
    ensures data.Some? && data.value.page.Some? ==>
      r == data.value.page.value.media.GetOr([])
  {
    if data.Some? && data.value.page.Some? && data.value.page.value.media.Some?
    then data.value.page.value.media.value
    else []
  }

  /** The page number the result reports, if any link of the chain is present. */
  function ReportedPage(data: Option<QueryData>): (r: Option<int>)
    ensures data.None? || data.value.page.None? ==> r.None?
    ensures data.Some? && data.value.page.Some? && data.value.page.value.pageInfo.None? ==> r.None?
    ensures data.Some? && data.value.page.Some? && data.value.page.value.pageInfo.Some? ==>
      r == data.value.page.value.pageInfo.value.currentPage
  {
    if data.Some? && data.value.page.Some? && data.value.page.value.pageInfo.Some?
    then data.value.page.value.pageInfo.value.currentPage
    else None
  }

  /** The truthiness of the result's `hasNextPage`: only a present `true` counts. */
  function HasNextPage(data: Option<QueryData>): (b: bool)
    ensures data.None? || data.value.page.None? ==> !b
    ensures data.Some? && data.value.page.Some? && data.value.page.value.pageInfo.None? ==> !b
    ensures data.Some? && data.value.page.Some? && data.value.page.value.pageInfo.Some? ==>
      (b <==> data.value.page.value.pageInfo.value.hasNextPage.GetOr(false))
  {
    && data.Some? && data.value.page.Some? && data.value.page.value.pageInfo.Some?
    && data.value.page.value.pageInfo.value.hasNextPage == Some(true)
  }

  /** The reported page with JavaScript's `|| 0` fallback: a falsy value
      (missing, or the number 0) becomes 0. */
  function PageOrZero(data: Option<QueryData>): (n: int)
    ensures n == ReportedPage(data).GetOr(0)
  {
    var current := ReportedPage(data);
    if current.Some? && current.value != 0 then current.value else 0
  }
}
