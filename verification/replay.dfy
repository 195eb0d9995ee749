/** The home page over many events: the list left by a series of results,
    stated once as a fold of the merge rule and once by an independent
    reference definition, and the state machine run over a trace of events. */
module Replay {
  import opened Optional
  import opened MediaData
  import opened Home

  /** A result that reports page 1 and so resets the list. */
  predicate IsFirstPage(d: QueryData) {
    ReportedPage(Some(d)) == Some(1)
  }

  /** The media collections of a series of results, concatenated in arrival order. */
  function Flatten(ds: seq<QueryData>): seq<Option<Media>> {
    if ds == [] then [] else Flatten(ds[..|ds| - 1]) + MediaCollection(Some(ds[|ds| - 1]))
  }

  /** The position of the last first-page result, if there is one. */
  function LastReset(ds: seq<QueryData>): (r: Option<nat>)
    ensures r.Some? ==>
      && r.value < |ds| && IsFirstPage(ds[r.value])
      && forall j :: r.value < j < |ds| ==> !IsFirstPage(ds[j])
    ensures r.None? ==> forall j :: 0 <= j < |ds| ==> !IsFirstPage(ds[j])
  {
    if ds == [] then None
    else if IsFirstPage(ds[|ds| - 1]) then Some(|ds| - 1)
    else LastReset(ds[..|ds| - 1])
  }

  /** Reference definition of the list after the results `ds`: the results
      from the last first page on, or, without one, everything appended to
      `prev`. */
  function Expected(prev: seq<Option<Media>>, ds: seq<QueryData>): seq<Option<Media>> {
    match LastReset(ds)
    case None => prev + Flatten(ds)
    case Some(k) => Flatten(ds[k..])
  }

  /** The merge rule applied to each result in turn. */
  function MergeAll(prev: seq<Option<Media>>, ds: seq<QueryData>): seq<Option<Media>> {
    if ds == [] then prev else Merge(MergeAll(prev, ds[..|ds| - 1]), Some(ds[|ds| - 1]))
  }

  lemma FlattenSnoc(ds: seq<QueryData>, d: QueryData)
    ensures Flatten(ds + [d]) == Flatten(ds) + MediaCollection(Some(d))
  {
    assert (ds + [d])[..|ds|] == ds;
  }

  lemma LastResetSnoc(ds: seq<QueryData>, d: QueryData)
    ensures LastReset(ds + [d]) == if IsFirstPage(d) then Some(|ds|) else LastReset(ds)
  {
    assert (ds + [d])[..|ds|] == ds;
  }

  lemma MergeAllSnoc(prev: seq<Option<Media>>, ds: seq<QueryData>, d: QueryData)
    ensures MergeAll(prev, ds + [d]) == Merge(MergeAll(prev, ds), Some(d))
  {
    assert (ds + [d])[..|ds|] == ds;
  }

  lemma ExpectedSnocFirstPage(prev: seq<Option<Media>>, ds: seq<QueryData>, d: QueryData)
    requires IsFirstPage(d)
    ensures Expected(prev, ds + [d]) == MediaCollection(Some(d))
  {
    LastResetSnoc(ds, d);
    assert (ds + [d])[|ds|..] == [d];
    FlattenSnoc([], d);
    assert [] + [d] == [d];
  }

  lemma ExpectedSnocLaterPage(prev: seq<Option<Media>>, ds: seq<QueryData>, d: QueryData)
    requires !IsFirstPage(d)
    ensures Expected(prev, ds + [d]) == Expected(prev, ds) + MediaCollection(Some(d))
  {
    LastResetSnoc(ds, d);
    match LastReset(ds)
    case None =>
      FlattenSnoc(ds, d);
    case Some(k) =>
      assert (ds + [d])[k..] == ds[k..] + [d];
      FlattenSnoc(ds[k..], d);
  }

  /** One more result moves the reference list exactly as the merge rule does. */
  lemma ExpectedSnoc(prev: seq<Option<Media>>, ds: seq<QueryData>, d: QueryData)
    ensures Expected(prev, ds + [d]) == Merge(Expected(prev, ds), Some(d))
  {
    if IsFirstPage(d) {
      ExpectedSnocFirstPage(prev, ds, d);
    } else {
      ExpectedSnocLaterPage(prev, ds, d);
    }
  }

  /** Folding the merge rule yields the reference list. */
  lemma {:induction false} MergeAllMatchesExpected(prev: seq<Option<Media>>, ds: seq<QueryData>)
    ensures MergeAll(prev, ds) == Expected(prev, ds)
  {
    if ds != [] {
      var init, d := ds[..|ds| - 1], ds[|ds| - 1];
      assert ds == init + [d];
      MergeAllMatchesExpected(prev, init);
      MergeAllSnoc(prev, init, d);
      ExpectedSnoc(prev, init, d);
    }
  }

  /** A first page followed only by later pages leaves exactly all their
      media in arrival order, whatever was accumulated before. */
  lemma FirstPageThenLaterPagesConcatenate(prev: seq<Option<Media>>, ds: seq<QueryData>)
    requires |ds| > 0 && IsFirstPage(ds[0])
    requires forall j :: 0 < j < |ds| ==> !IsFirstPage(ds[j])
    ensures MergeAll(prev, ds) == Flatten(ds)
  {
    MergeAllMatchesExpected(prev, ds);
    assert LastReset(ds) == Some(0);
    assert ds[0..] == ds;
  }

  /** Without a first page the results only append: the earlier list is a
      prefix of the new one, in the same order and positions. */
  lemma LaterPagesOnlyAppend(prev: seq<Option<Media>>, ds: seq<QueryData>)
    requires forall j :: 0 <= j < |ds| ==> !IsFirstPage(ds[j])
    ensures MergeAll(prev, ds) == prev + Flatten(ds)
    ensures MergeAll(prev, ds)[..|prev|] == prev
  {
    MergeAllMatchesExpected(prev, ds);
    assert (prev + Flatten(ds))[..|prev|] == prev;
  }

  /** Once a first page has arrived, earlier content is forgotten: the list
      is the same whatever it started from. This is also why a first-page
      result arriving late wipes out pages appended before it. */
  lemma FirstPageForgetsHistory(prev: seq<Option<Media>>, other: seq<Option<Media>>, ds: seq<QueryData>)
    requires exists j :: 0 <= j < |ds| && IsFirstPage(ds[j])
    ensures MergeAll(prev, ds) == MergeAll(other, ds)
  {
    MergeAllMatchesExpected(prev, ds);
    MergeAllMatchesExpected(other, ds);
  }

  /** The merge effect run once per arriving result. */
  method ReplayResults(prev: seq<Option<Media>>, ds: seq<QueryData>) returns (list: seq<Option<Media>>)
    ensures list == Expected(prev, ds)
  {
    list := prev;
    var i := 0;
    while i < |ds|
      invariant 0 <= i <= |ds|
      invariant list == MergeAll(prev, ds[..i])
    {
      assert ds[..i + 1][..i] == ds[..i];
      list := Merge(list, Some(ds[i]));
      i := i + 1;
    }
    assert ds[..i] == ds;
    MergeAllMatchesExpected(prev, ds);
  }

  /** An event the page reacts to. */
  datatype Event =
    | SearchTyped(text: string)
    | SentinelFired(entries: seq<Entry>)
    | Answered(d: QueryData)
    | Failed(message: string)

  /** One event. A throwing observer callback changes nothing. */
  function Step(s: State, e: Event): (r: State)
    ensures e.SearchTyped? ==> r.vars == s.vars.(search := Some(e.text), page := 1) && r.list == s.list
    ensures e.SentinelFired? && |e.entries| == 0 ==> r == s
    ensures e.SentinelFired? && |e.entries| > 0 ==> Some(r) == OnSentinel(s, e.entries)
    ensures e.SearchTyped? ==> r == OnSearch(s, e.text)
    ensures e.Answered? ==> r == OnResponse(s, e.d)
    ensures e.Failed? ==> r == OnFailure(s, e.message)
    ensures e.Answered? ==> r.data == Some(e.d) && PhaseOf(r) == Idle
    ensures e.Failed? ==> r.list == s.list && r.error == Some(e.message) && PhaseOf(r) == ShowingError
  {
    match e
    case SearchTyped(text) => OnSearch(s, text)
    case SentinelFired(entries) =>
      (match OnSentinel(s, entries)
       case None => s
       case Some(t) => t)
    case Answered(d) => OnResponse(s, d)
    case Failed(message) => OnFailure(s, message)
  }

  function Run(s: State, es: seq<Event>): State {
    if es == [] then s else Step(Run(s, es[..|es| - 1]), es[|es| - 1])
  }

  /** The results among a trace's events, in order. */
  function Answers(es: seq<Event>): seq<QueryData> {
    if es == [] then []
    else Answers(es[..|es| - 1]) + (if es[|es| - 1].Answered? then [es[|es| - 1].d] else [])
  }

  /** A single event touches the list only when it is a result. */
  lemma StepTouchesListOnlyOnAnswer(s: State, e: Event)
    ensures !e.Answered? ==> Step(s, e).list == s.list
    ensures e.Answered? ==> Step(s, e).list == Merge(s.list, Some(e.d))
  {
  }

  /** Only results touch the list: after any trace it is the merge of the
      trace's results onto the starting list. */
  lemma {:induction false} RunListFollowsAnswers(s: State, es: seq<Event>)
    ensures Run(s, es).list == MergeAll(s.list, Answers(es))
  {
    if es != [] {
      var n := |es| - 1;
      var init, e := es[..n], es[n];
      RunListFollowsAnswers(s, init);
      var before := Run(s, init);
      assert Run(s, es) == Step(before, e);
      StepTouchesListOnlyOnAnswer(before, e);
      var a := Answers(init);
      if e.Answered? {
        assert Answers(es) == a + [e.d];
        assert (a + [e.d])[..|a|] == a;
      } else {
        assert Answers(es) == a;
      }
    }
  }

  /** No event changes the page size or the sort order of requests. */
  lemma {:induction false} RunKeepsPageSizeAndSort(s: State, es: seq<Event>)
    ensures Run(s, es).vars.perPage == s.vars.perPage
    ensures Run(s, es).vars.sort == s.vars.sort
  {
    if es != [] {
      RunKeepsPageSizeAndSort(s, es[..|es| - 1]);
    }
  }

  /** A result that reports no page number or a non-negative one. */
  predicate SanePage(data: Option<QueryData>) {
    ReportedPage(data).GetOr(0) >= 0
  }

  /** While the service reports non-negative page numbers, every request
      asks for page 1 or later. */
  lemma {:induction false} RunRequestsPositivePages(s: State, es: seq<Event>)
    requires s.vars.page >= 1 && SanePage(s.data)
    requires forall j :: 0 <= j < |es| && es[j].Answered? ==> SanePage(Some(es[j].d))
    ensures Run(s, es).vars.page >= 1 && SanePage(Run(s, es).data)
  {
    if es != [] {
      var n := |es| - 1;
      RunRequestsPositivePages(s, es[..n]);
    }
  }

  /** From mount, the list after any trace is the reference list of its results. */
  lemma ListFromMount(es: seq<Event>)
    ensures Run(Initial(), es).list == Expected([], Answers(es))
  {
    RunListFollowsAnswers(Initial(), es);
    MergeAllMatchesExpected([], Answers(es));
  }
}
