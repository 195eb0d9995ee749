# Home page pagination, modelled in Dafny

The home page of the media browser (`src/pages/Home.tsx`) queries a media
catalog service page by page, lets the user search, and loads the next page
when a sentinel element at the bottom of the list scrolls into view. Its only
logic outside rendering is a small state machine, modelled here as pure
transitions over one state record:

- the accumulated list of media (entries may be null), the last received
  result, the query client's loading flag and error, and the variables of the
  last issued request (`Home.State`);
- the **merge rule** run whenever a result arrives: a result whose
  `pageInfo.currentPage` is exactly 1 replaces the list, any other result is
  appended; a missing result, page or media list reads as an empty collection
  (`Home.Merge`, `Home.OnResponse`);
- the **next-page guard** of the intersection-observer callback: only when the
  first entry intersects, nothing is loading and the last result's
  `hasNextPage` is `true` is a request for page `currentPage + 1` issued, a
  missing page number counting as 0 (`Home.SentinelDecision`,
  `Home.OnSentinel`);
- the **search reset**: the debounced search handler issues a request for page
  1 of the entered text (`Home.OnSearch`).

Files: `optional.dfy` (missing values), `media_data.dfy` (the service's result
shapes, request variables, the partial variables given to `refetch`, and the
JavaScript readings of the result's nullable fields), `home.dfy` (state,
transitions and one-step properties), `replay.dfy` (series of results and
traces of events: the merge rule folded over many results is proved equal to
an independent reference definition, and the state machine is run over
arbitrary event traces).

The model follows the code:

- the next page is computed from the page number the last *result* reports
  (missing or 0 counts as 0), not from a separately kept page counter;
- a search does not clear the list itself; the list is replaced only when a
  result reporting page 1 arrives, and any result reporting page 1 (not only
  one answering a search) replaces it;
- the callback reads `isIntersecting` of the first entry itself; with no entry
  at all, that read throws, which the model reports as `None` and which in a
  trace leaves the state unchanged.

The query client (Apollo) is a collaborator whose code is not part of this
model. Its behaviour enters as: a request sets the loading flag and the
variables (a `refetch` with partial variables keeps the fields it does not
name), a result clears the flag and becomes the last result, a failure clears
the flag and records the message, keeping the last result and the list.

## Model

| member | source | states |
|---|---|---|
| `MediaData.Apply` | src/pages/Home.tsx:42-44 | a `refetch` with partial variables gives every field it names the patch's value, keeps every field it does not name, and never changes the page size or sort order |
| `MediaData.MediaCollection` | src/pages/Home.tsx:65 | the result's media list, read through optional chaining: empty when the result or its page is missing, and also when the media list is missing |
| `MediaData.ReportedPage` | src/pages/Home.tsx:66 | the result's reported page number, absent when the result, its page or its page info is missing |
| `MediaData.HasNextPage` | src/pages/Home.tsx:38-41 | a next page counts only when the result, page and page info are all present and `hasNextPage` is `true`; a missing or null flag counts as false |
| `MediaData.PageOrZero` | src/pages/Home.tsx:39 | the or-zero fallback on the reported page (missing or 0 gives 0) equals "the reported page, or 0 when missing" |
| `Home.Initial` | src/pages/Home.tsx:14-21 | on mount the list is empty, no result has arrived, no error is shown, the first request is loading, and it asks for page 1 of no search, 20 per page, trending then popularity order |
| `Home.MountMergeKeepsListEmpty` | src/pages/Home.tsx:64-71 | the merge effect's run on mount, before any result, leaves the list empty |
| `Home.Merge` | src/pages/Home.tsx:64-71 | a result reporting page 1 makes the list exactly its media, whatever came before; any other result keeps the old list as a prefix in place and puts its media after it, so the length is the sum |
| `Home.MergeKeepsEveryEntry` | src/pages/Home.tsx:64-71 | merging does no filtering or de-duplication: as multisets the result is the kept list plus the new media, nulls and repeats included |
| `Home.MergeUnchangedIffNoMedia` | src/pages/Home.tsx:65-70 | away from page 1 the list stays unchanged exactly when the result carries no media (so a missing page or media list changes nothing) |
| `Home.SentinelDecision` | src/pages/Home.tsx:33-49 | the callback throws exactly when there is no first entry; it fetches exactly when the first entry intersects, nothing is loading and `hasNextPage` is true; a fetch names only the page, the reported page plus one with missing as 0 |
| `Home.Issue` | src/pages/Home.tsx:42-44 | issuing a request through `refetch` makes the page loading and patches the request variables; the list, last result and error stay |
| `Home.OnSentinel` | src/pages/Home.tsx:33-49 | the callback never touches the list or last result; it changes the state exactly when the guard passes, and then the request is loading with only the page variable moved to the reported page plus one, and any shown error kept |
| `Home.OnSearch` | src/pages/Home.tsx:24-31 | a search issues a request whose search is the entered text and whose page is 1, other variables kept; the list and any shown error are untouched until the result |
| `Home.OnResponse` | src/pages/Home.tsx:64-71 | a result stops loading, becomes the last result and replaces (page 1) or extends (otherwise) the list; request variables are unchanged |
| `Home.OnFailure` | src/pages/Home.tsx:90-91 | a failure shows its message and merges nothing: list, last result and variables stay |
| `Home.SearchThenFirstPageReplaces` | src/pages/Home.tsx:24-71 | a search answered by its page-1 result leaves exactly that result's media, under the searched text and page 1 |
| `Home.SentinelNoDoubleFetch` | src/pages/Home.tsx:40-45 | once a next-page request is out, further sentinel callbacks issue nothing until a result or failure |
| `Home.SentinelThenNextPageAppends` | src/pages/Home.tsx:37-70 | when the last result reported page 1 or later, a next-page request answered with the page it asked for extends the list, the old items kept in front |
| `Home.SentinelWithoutPageThenFirstPageReplaces` | src/pages/Home.tsx:37-70 | when the last result reported no page number, the callback asks for page 1, and the answer reporting that page replaces the list instead of extending it |
| `Home.ScrollThenSearchScenario` | src/pages/Home.tsx:14-71 | mount, a 20-item first page, a scroll to a 15-item last page gives 35 items and no further fetch; a search then answered by 5 items leaves exactly those 5 |
| `Replay.LastReset` | src/pages/Home.tsx:68-70 | locates the last result reporting page 1: no later result reports page 1, and when none is found no result does |
| `Replay.ExpectedSnoc` | src/pages/Home.tsx:68-70 | one more result moves the reference list exactly as the merge rule moves the accumulated list |
| `Replay.MergeAllMatchesExpected` | src/pages/Home.tsx:64-71 | applying the merge rule to each result in turn gives the reference list: the media of all results from the last page-1 result on, or without one everything appended to the starting list |
| `Replay.ReplayResults` | src/pages/Home.tsx:64-71 | running the merge effect once per arriving result produces the reference list |
| `Replay.FirstPageThenLaterPagesConcatenate` | src/pages/Home.tsx:68-70 | a page-1 result followed only by later pages leaves exactly the concatenation of all their media in arrival order |
| `Replay.LaterPagesOnlyAppend` | src/pages/Home.tsx:70 | results none of which reports page 1 only append: the old list stays a prefix, order and positions kept |
| `Replay.FirstPageForgetsHistory` | src/pages/Home.tsx:68-69 | after any page-1 result the list no longer depends on what was accumulated before (a late page-1 result wipes pages appended earlier) |
| `Replay.Step` | src/pages/Home.tsx:24-71 | one event: a search asks for page 1 of its text; an observer callback with no entry throws and changes nothing, otherwise it acts as the guarded callback; a result becomes the last result and ends loading; a failure shows its message and keeps the list; each event acts exactly as its single-step transition, so whatever that transition keeps stays unchanged |
| `Replay.StepTouchesListOnlyOnAnswer` | src/pages/Home.tsx:24-71 | searches, sentinel callbacks and failures leave the list alone; a result merges into it |
| `Replay.RunListFollowsAnswers` | src/pages/Home.tsx:14-71 | after any trace of events the list is the merge of the trace's results, in order, onto the starting list |
| `Replay.ListFromMount` | src/pages/Home.tsx:14-71 | from mount, after any trace the list is the reference list of the trace's results |
| `Replay.RunKeepsPageSizeAndSort` | src/pages/Home.tsx:15-44 | no event ever changes the page size or sort order of requests |
| `Replay.RunRequestsPositivePages` | src/pages/Home.tsx:18-44 | as long as the service reports non-negative page numbers, every request asks for page 1 or later |

## Left out

- The 500 ms debounce of the search handler (lodash `debounce`): a foreign timer utility; a search is modelled as the one call the debounce lets through.
- Intersection-observer setup, its root margin and threshold, and disconnection on unmount: browser plumbing; the model takes the callback's entries as input.
- Apollo's request execution, caching, de-duplication and the details of merging partial variables: foreign library code; `refetch` is an abstract "request issued with these variables" event. The model assumes the query client reports `loading` from the call to `refetch` until a result or failure; nothing in Home.tsx sets it.
- Home.OnFailure: keeping the last result on a failure is an assumption about the query client; src/pages/Home.tsx:90-91 only render the texts. Likewise `Home.OnResponse` clearing the error is the client's behaviour, not code in Home.tsx. The list does not depend on the first assumption: had the client dropped the result on failure, the merge effect would append an empty collection and leave the list unchanged.
- Home.SentinelNoDoubleFetch: the property comes from `Home.Issue` setting `loading := true`, which is the assumption about the query client stated above. It does not follow from src/pages/Home.tsx:40-45 alone.
- React hook scheduling and `useCallback` dependencies: when state updates become visible is a host-runtime concern; each event is applied to the latest state.
- Rendering, the loading and error text, skipping null entries at render time, and styling; `src/pages/layout/index.tsx` is pure layout composition and is not part of this model.
- Media records' attributes: only an identifier is kept, since no rule reads them.
- JavaScript numbers are floating point; page numbers are modelled as unbounded integers, which differs only beyond 2^53.
- Only the two sort keys the page requests are modelled, not the service's whole sort enumeration.
