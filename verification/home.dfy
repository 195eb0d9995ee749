/** The incremental-pagination state machine of the home page
    (src/pages/Home.tsx), lifted out of its React hooks as pure transitions
    over one state record. */
module Home {
  import opened Optional
  import opened MediaData

  /** The variables of the request issued when the page mounts. */
  const InitialVariables: Variables := Variables(None, 1, 20, [TrendingDesc, PopularityDesc])

  /** One intersection-observer entry; only its intersection flag is read. */
  datatype Entry = Entry(isIntersecting: bool)

  /** The page's state: the accumulated list (null entries included), the
      last received result, the query client's loading flag and error, and
      the variables of the last issued request. */
  datatype State = State(
    list: seq<Option<Media>>,
    data: Option<QueryData>,
    loading: bool,
    error: Option<string>,
    vars: Variables)

  /** The request phase; a request in flight ranks above a kept error message
      (the page itself renders the loading text and the error text independently). */
  datatype Phase = Idle | Loading | ShowingError

  function PhaseOf(s: State): Phase {
    if s.loading then Loading
    else if s.error.Some? then ShowingError
    else Idle
  }

  /** The state right after mount: nothing received yet, the first request
      under way. */
  function Initial(): (s: State)
    ensures s.list == [] && s.data.None? && PhaseOf(s) == Loading && s.error.None?
    ensures s.vars.search.None? && s.vars.page == 1 && s.vars.perPage == 20
    ensures s.vars.sort == [TrendingDesc, PopularityDesc]
  {
    State([], None, true, None, InitialVariables)
  }

  /** The merge rule run whenever a result arrives: a result reporting page 1
      replaces the accumulated list, anything else is appended to it. */
  function Merge(prev: seq<Option<Media>>, data: Option<QueryData>): (r: seq<Option<Media>>)
    ensures ReportedPage(data) == Some(1) ==> r == MediaCollection(data)
    ensures ReportedPage(data) != Some(1) ==>
      && |r| == |prev| + |MediaCollection(data)|
      && r[..|prev|] == prev
      && r[|prev|..] == MediaCollection(data)
  {
    var mediaCollection := MediaCollection(data);
    if ReportedPage(data) == Some(1) then mediaCollection else prev + mediaCollection
  }

  /** Merging neither filters nor de-duplicates: every entry of the kept
      inputs, nulls and repeats included, occurs as often in the result. */
  lemma MergeKeepsEveryEntry(prev: seq<Option<Media>>, data: Option<QueryData>)
    ensures ReportedPage(data) == Some(1) ==>
      multiset(Merge(prev, data)) == multiset(MediaCollection(data))
    ensures ReportedPage(data) != Some(1) ==>
      multiset(Merge(prev, data)) == multiset(prev) + multiset(MediaCollection(data))
  {
    if ReportedPage(data) != Some(1) {
      assert Merge(prev, data) == prev + MediaCollection(data);
    }
  }

  /** Away from page 1 the list stays as it was exactly when the result
      carries no media, in particular when its page or media list is missing. */
  lemma MergeUnchangedIffNoMedia(prev: seq<Option<Media>>, data: Option<QueryData>)
    requires ReportedPage(data) != Some(1)
    ensures Merge(prev, data) == prev <==> MediaCollection(data) == []
  {
    if MediaCollection(data) == [] {
      assert Merge(prev, data) == prev + [];
    }
  }

  /** On mount the merge effect sees no result yet and keeps the list empty. */
  lemma MountMergeKeepsListEmpty()
    ensures Merge(Initial().list, Initial().data) == []
  {
  }

  /** The outcome of one intersection-observer callback. */
  datatype SentinelOutcome =
    | TargetMissing          // no first entry: reading its flag throws
    | NoFetch
    | Fetch(patch: VariablesPatch)

  /** The observer callback's decision: fetch the page after the reported one
      when the first entry intersects, nothing is loading and the last result
      says there is a next page. */
  function SentinelDecision(entries: seq<Entry>, loading: bool, data: Option<QueryData>): (r: SentinelOutcome)
    ensures r.TargetMissing? <==> |entries| == 0
    ensures r.Fetch? <==> |entries| > 0 && entries[0].isIntersecting && !loading && HasNextPage(data)
    ensures r.Fetch? ==> r.patch == VariablesPatch(None, Some(ReportedPage(data).GetOr(0) + 1))
  {
    if |entries| == 0 then TargetMissing
    else if entries[0].isIntersecting then
      var hasNextPage := HasNextPage(data);
      var currentPage := PageOrZero(data);
      if !loading && hasNextPage then Fetch(VariablesPatch(None, Some(currentPage + 1)))
      else NoFetch
    else NoFetch
  }

  /** Issuing a request through `refetch`. The query client is assumed to
      report loading from this call until a result or failure arrives; the
      request carries the previous variables overridden by the patch. */
  function Issue(s: State, patch: VariablesPatch): (r: State)
    ensures PhaseOf(r) == Loading && r.vars == Apply(s.vars, patch)
    ensures r.list == s.list && r.data == s.data && r.error == s.error
  {
    s.(loading := true, vars := Apply(s.vars, patch))
  }

  /** The observer callback on the whole state. `None` when the callback
      throws for want of a first entry; otherwise the state, changed exactly
      when a next-page request is issued. */
  function OnSentinel(s: State, entries: seq<Entry>): (r: Option<State>)
    ensures r.None? <==> |entries| == 0
    ensures r.Some? ==> r.value.list == s.list && r.value.data == s.data
    ensures r.Some? ==>
      (r.value == s <==> !(entries[0].isIntersecting && !s.loading && HasNextPage(s.data)))
    ensures r.Some? && r.value != s ==>
      && PhaseOf(r.value) == Loading
      && r.value.error == s.error
      && r.value.vars == s.vars.(page := ReportedPage(s.data).GetOr(0) + 1)
  {
    match SentinelDecision(entries, s.loading, s.data)
    case TargetMissing => None
    case NoFetch => Some(s)
    case Fetch(patch) => Some(Issue(s, patch))
  }

  /** The debounced search handler, as the one call the debounce lets through:
      a request for page 1 of the entered text. The list is left alone until
      the result arrives. */
  function OnSearch(s: State, text: string): (r: State)
    ensures r.vars == s.vars.(search := Some(text), page := 1)
    ensures PhaseOf(r) == Loading && r.list == s.list && r.data == s.data
    ensures r.error == s.error
  {
    Issue(s, VariablesPatch(Some(Some(text)), Some(1)))
  }

  /** A successful result: loading stops, the result becomes the last one
      and the merge rule updates the list. */
  function OnResponse(s: State, d: QueryData): (r: State)
    ensures PhaseOf(r) == Idle && r.data == Some(d) && r.vars == s.vars
    ensures ReportedPage(Some(d)) == Some(1) ==> r.list == MediaCollection(Some(d))
    ensures ReportedPage(Some(d)) != Some(1) ==> r.list == s.list + MediaCollection(Some(d))
  {
    s.(list := Merge(s.list, Some(d)), data := Some(d), loading := false, error := None)
  }

  /** A failed request: the message is shown and nothing is merged. */
  function OnFailure(s: State, message: string): (r: State)
    ensures PhaseOf(r) == ShowingError && r.error == Some(message)
    ensures r.list == s.list && r.data == s.data && r.vars == s.vars
  {
    s.(loading := false, error := Some(message))
  }

  /** A search followed by its page-1 result leaves exactly that result's
      media, whatever had been accumulated before. */
  lemma SearchThenFirstPageReplaces(s: State, text: string, d: QueryData)
    requires ReportedPage(Some(d)) == Some(1)
    ensures OnResponse(OnSearch(s, text), d).list == MediaCollection(Some(d))
    ensures OnResponse(OnSearch(s, text), d).vars.search == Some(text)
    ensures OnResponse(OnSearch(s, text), d).vars.page == 1
  {
  }

  /** Once the sentinel has issued a request, further callbacks issue nothing
      until a result or failure clears the loading flag. */
  lemma SentinelNoDoubleFetch(s: State, first: seq<Entry>, second: seq<Entry>)
    requires OnSentinel(s, first).Some? && OnSentinel(s, first).value != s
    ensures |second| > 0 ==> OnSentinel(OnSentinel(s, first).value, second) == OnSentinel(s, first)
  {
  }

  /** A next-page request answered with the page it asked for (page 2 or
      later) extends the list without disturbing what was there. */
  lemma SentinelThenNextPageAppends(s: State, entries: seq<Entry>, d: QueryData)
    requires OnSentinel(s, entries).Some? && OnSentinel(s, entries).value != s
    requires ReportedPage(s.data).GetOr(0) >= 1
    requires ReportedPage(Some(d)) == Some(OnSentinel(s, entries).value.vars.page)
    ensures OnResponse(OnSentinel(s, entries).value, d).list == s.list + MediaCollection(Some(d))
  {
  }

  /** When the last result reported no page number, the callback asks for
      page 1, and the answer reporting that page replaces the list instead of
      extending it. */
  lemma SentinelWithoutPageThenFirstPageReplaces(s: State, entries: seq<Entry>, d: QueryData)
    requires OnSentinel(s, entries).Some? && OnSentinel(s, entries).value != s
    requires ReportedPage(s.data).None?
    requires ReportedPage(Some(d)) == Some(OnSentinel(s, entries).value.vars.page)
    ensures OnSentinel(s, entries).value.vars.page == 1
    ensures OnResponse(OnSentinel(s, entries).value, d).list == MediaCollection(Some(d))
  {
  }

  /** `count` media entries with consecutive identifiers from `first`. */
  function Items(first: int, count: nat): seq<Option<Media>> {
    seq(count, i => Some(Media(first + i)))
  }

  function Result(items: seq<Option<Media>>, currentPage: int, hasNextPage: bool): QueryData {
    QueryData(Some(Page(Some(items), Some(PageInfo(Some(currentPage), Some(hasNextPage))))))
  }

  /** Mount, a 20-item first page, a sentinel hit, a 15-item last page, a
      further sentinel hit, then a search answered by a 5-item first page. */
  lemma ScrollThenSearchScenario()
    ensures var s1 := OnResponse(Initial(), Result(Items(0, 20), 1, true));
      && |s1.list| == 20
      && OnSentinel(s1, [Entry(true)]).Some?
      && var s2 := OnSentinel(s1, [Entry(true)]).value;
      && s2.vars == InitialVariables.(page := 2)
      && var s3 := OnResponse(s2, Result(Items(20, 15), 2, false));
      && |s3.list| == 35
      && OnSentinel(s3, [Entry(true)]) == Some(s3)
      && var s4 := OnSearch(s3, "naruto");
      && s4.vars == InitialVariables.(search := Some("naruto"))
      && OnResponse(s4, Result(Items(100, 5), 1, false)).list == Items(100, 5)
  {
  }
}
