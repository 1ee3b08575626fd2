# Image finder: the search and pagination state of `App`

This project models the `App` class component of a React image-search client
(`src/components/App.jsx`). The user submits a query. The component asks the
Pixabay-backed search service for page after page of hits. It appends them to
a gallery and shows a "load more" button while more pages may exist. It shows a
loader while a fetch is in flight. It raises toasts for errors, for a query
without results and for the last page. It opens a modal with one enlarged image.

The model has three modules:

- `AppState` (`app_state.dfy`) holds the state record: `searchImage`, `status`,
  `page`, `images`, `totalPages`, `showModal`, `largeImageURL`, `tags` and
  `error`. It also holds pure functions for each handler's batch of `setState`
  updates, the three comparisons `componentDidUpdate` makes between the
  previous and the next snapshot (start a fetch, raise the error toast, raise
  the "no more images" toast), and the two flags `render` derives
  (`ShowLoadMore`, `ShowLoader`). `Step` is one handler together with the commit
  that follows it: the batch, the toasts of `componentDidUpdate`, and the fetch
  it may start. `Run` chains steps. Every step reports its toasts, in order,
  and its calls `getImages(searchImage, page)`.
- `AppComponent` (`app_component.dfy`) is the component as a class, `App`.
  Its fields are the state record, plus a log of toasts and a log of search
  requests. `HandleSubmit`, `OnClickLoadMore`, `OpenModal` and `CloseModal`
  are the handlers. `AddImages` is `addImages` up to its `await`. `ResolveFetch`
  is the rest of `addImages`, applied to the outcome of the awaited call.
  `ComponentDidUpdate` runs after each batch. The four handlers and
  `ResolveFetch` keep the invariant `Valid()` and leave exactly the state and
  logs that `AppState.Step` gives. The internal methods follow the functions
  they run: `ComponentDidUpdate` gives what `AppState.Commit` gives,
  `AddImages` gives `AppState.FetchStarted`, and `ApplyOutcome` gives
  `AppState.FetchSettled`.
- `AppProperties` (`app_properties.dfy`) holds the properties of single steps
  and of runs. A run of further pages accumulates hits in fetch order. A
  failure keeps the pages loaded before it. The same error is not toasted
  twice. Two scenarios are proved: a three-page query ("cats", 25 hits) and a
  query without results.

The state is taken as React 18 leaves it. All `setState` calls made by one
handler, or by `addImages` after its `await`, are committed together. Then
`componentDidUpdate` runs once with the state from before the batch. The
`setState({status: pending})` made by a fetch that `componentDidUpdate` starts
is committed after that, with its own `componentDidUpdate`. That second call
can raise toasts but cannot start a fetch.

`App.jsx` does some things a reader may not expect. The model follows the
code:

- Load-more has no guard. It always moves to the next page and fetches it
  (`LoadMoreUnguarded`). Only the hidden button keeps users from calling it.
- Submitting a query keeps `totalPages` and `error`. `error` is never cleared.
- Submitting the current query again on page 1 starts no fetch. It empties
  the gallery. If a fetch is still pending and `totalPages` is still 1, it also
  raises "no more images" (`ResubmitOnFirstPage`).
- A fetch with zero hits keeps the images already in the gallery.
- The "no more images" toast is raised on any commit where the previous
  status was pending and the page equals `totalPages`. This includes opening
  or closing the modal while the last page is loading (`ModalOnly`).

## Model

| member | source | states |
|---|---|---|
| `AppState.PageCount` | src/components/App.jsx:66 | the page count is the least `n` with `n * 12 >= totalHits` (ceiling of `totalHits / 12`) |
| `AppState.Step` | src/components/App.jsx:28-87 | every handler plus its commit keeps the reachable-state invariant `Valid`. It changes `error` only on a failure, to that failure's message. A fetch it starts asks for the new state's query and page and leaves the status pending |
| `AppProperties.StepNotices` | src/components/App.jsx:36-61 | over every step: "no more images" is raised exactly when the step began with a fetch pending and ends with `page` equal to `totalPages`. The error toast is raised exactly when the step is a failure whose message differs from the recorded error. "No images" is raised exactly when the step is a fetch with zero hits |
| `AppProperties.MessageTexts` | src/components/App.jsx:37-59 | the error toast reads "Something went wrong! " followed by the message, so different messages give different texts. The "no images" and "no more images" texts differ |
| `AppProperties.StepViewFlags` | src/components/App.jsx:92-99 | a step that starts a fetch ends with the loader shown and the load-more button hidden. After a fetch with hits, the button is shown exactly when the page differs from the page count of `totalHits`. The test is `!==`, not `<`, so a page past the count keeps the button shown |
| `AppProperties.PageCountExamples` | src/components/App.jsx:66 | 0, 1, 12, 13 and 25 hits make 0, 1, 1, 2 and 3 pages |
| `AppProperties.SubmitResets` | src/components/App.jsx:85-87 | a submit sets the query, empties the gallery and sets page 1. It keeps `totalPages`, `error` and the modal fields. It asks for page 1 of the query exactly when the query or the page changed. While a fetch is pending and `totalPages` is 1, it raises "no more images" once, or twice when it also starts a fetch. Otherwise it raises no toast |
| `AppProperties.ResubmitOnFirstPage` | src/components/App.jsx:29-47 | submitting the current query on page 1 empties the gallery, makes no request and keeps the status. Its only possible toast is "no more images", raised when a fetch is pending and `totalPages` is 1 |
| `AppProperties.LoadMoreUnguarded` | src/components/App.jsx:81-83 | load-more, in any state, increments the page by one, asks for that page and sets status pending. Nothing else changes. It raises "no more images" twice when a fetch is pending and the new page is `totalPages`. Otherwise it raises no toast |
| `AppProperties.SettleWithHits` | src/components/App.jsx:56-67 | hits are appended after the existing images, in order. `totalPages` becomes the page count of `totalHits` and the status becomes success. "No more images" is raised iff the previous status was pending and the page is the last |
| `AppProperties.SettleWithoutHits` | src/components/App.jsx:58-61 | zero hits keep images and `totalPages`, end idle, and raise "no images" first |
| `AppProperties.SettleWithFailure` | src/components/App.jsx:68-70 | a failure records its message and ends in error. Images, page and `totalPages` stay unchanged. The error toast is raised iff the message differs from the recorded error |
| `AppProperties.ModalOnly` | src/components/App.jsx:73-79 | opening the modal sets `showModal`, the image and the tags. Closing it clears only `showModal`. Neither starts a fetch. Either raises "no more images" when it happens while the last known page is loading |
| `AppProperties.SameFailureNotRenotified` | src/components/App.jsx:36-38 | after a failure, a load-more followed by the same failure raises no error toast |
| `AppProperties.RunKeepsValid` | src/components/App.jsx:17-87 | every run from a valid state ends in a valid state. Once recorded, an error is never cleared |
| `AppProperties.LoadOnePage` | src/components/App.jsx:50-83 | a load-more and its fetch with hits move to the next page, append the hits and ask for exactly that page |
| `AppProperties.LoadingPages` | src/components/App.jsx:50-83 | a run of further pages, each with hits, equals the closed form `PagesLoaded`. It is proved by induction on the pages |
| `AppProperties.LoadingPagesAccumulates` | src/components/App.jsx:64-67 | loading further pages asks for the following pages in turn and appends all their hits in fetch order. The image count grows by the total hit count. "No more images" is raised once, on reaching the last page |
| `AppProperties.FailureKeepsLoadedPages` | src/components/App.jsx:68-70 | a failure on a further page keeps every image loaded before it and records the failure |
| `AppProperties.FirstPageOfThree` | src/components/App.jsx:50-67 | "cats" with 12 of 25 hits gives page 1 of 3, status success, no toast |
| `AppProperties.ThreePageQuery` | src/components/App.jsx:40-47 | "cats" served as 12, 12 and 1 of 25 hits ends with 25 images, page 3 of 3 and the button hidden. "No more images" is the only toast, and pages 1, 2 and 3 are each requested once |
| `AppProperties.QueryWithoutResults` | src/components/App.jsx:58-61 | a query with no hits leaves the gallery empty and the status idle. "No images" is the only toast |
| `AppComponent.App.constructor` | src/components/App.jsx:17-26 | the initial state: empty query, idle, page 1, no images, no `totalPages`, modal closed, no error |
| `AppComponent.App.ComponentDidUpdate` | src/components/App.jsx:28-48 | appends the toasts of the comparison with the previous snapshot, and starts a fetch exactly when query or page changed |
| `AppComponent.App.AddImages` | src/components/App.jsx:50-54 | requests the current query and page, sets status pending, and appends the toasts of that commit |
| `AppComponent.App.ResolveFetch` | src/components/App.jsx:55-70 | applies the outcome: failure, zero hits or hits. Keeps `Valid` and leaves the state and logs of `AppState.Step` |
| `AppComponent.App.ApplyOutcome` | src/components/App.jsx:56-70 | makes the updates of the branch the outcome selects: failure, zero hits or hits. It returns the "no images" toast on zero hits and does not touch the logs |
| `AppComponent.App.HandleSubmit` | src/components/App.jsx:85-87 | sets query, empty gallery and page 1, starts the fetch if query or page changed, and keeps `Valid` |
| `AppComponent.App.OnClickLoadMore` | src/components/App.jsx:81-83 | increments the page, starts its fetch, and keeps the images |
| `AppComponent.App.OpenModal` | src/components/App.jsx:73-75 | shows the modal with the given image and tags and changes nothing else |
| `AppComponent.App.CloseModal` | src/components/App.jsx:77-79 | hides the modal and keeps the last image and tags |

## Left out

- `getImages` (src/components/App.jsx:12, 55), the HTTP client of the search service, is not part of this model. Its call is recorded as a `Request`, and its result or thrown error is the `Outcome` passed to `ResolveFetch`.
- Overlapping fetches. The code neither cancels nor tags a fetch whose query or page has been replaced. The model applies one outcome at a time, to whatever the state is when it arrives, and does not model the interleavings of several fetches in flight.
- React 17 behaviour, where the `setState` calls after an `await` are committed one by one. Under that behaviour `componentDidUpdate` would see the success status before `totalPages` is updated, which changes when "no more images" is raised.
- Rendering: `Searchbar`, `ImageGallery`, `Loader`, `Modal` and `Button` are display components whose code is not part of this model. Only the two flags `render` computes are modelled.
- `ToastContainer` settings (position, timing, theme) and the CSS module. A toast is an entry appended to a log. `Message` gives its text.
- `Math.ceil(totalHits / 12)` is computed on naturals as `(totalHits + 11) / 12`, not in floating point.
- The fields of a hit are carried, never read. The model assumes `hits` is a list and `totalHits` is a non-negative integer; a malformed response that makes `addImages` throw is a `Failed` outcome.
