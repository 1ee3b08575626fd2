/**
  The state record of the image-finder `App` component and everything that is
  computed from it: the batches of `setState` updates its handlers make, the
  comparisons `componentDidUpdate` makes between the previous and the next
  snapshot, and the flags `render` derives.  A handler's batch together with
  the commit that follows it is one `Step`; a sequence of user actions and
  fetch resolutions is a `Run`.
 */
module AppState {

  datatype Option<T> = None | Some(value: T)

  /** The four values of `STATUSES`. */
  datatype Status = Idle | Pending | Success | Error

  /** One hit of the search service; the component only passes hits on to the gallery. */
  datatype Image = Image(id: int, webformatURL: string, largeImageURL: string, tags: string)

  /** What the awaited `getImages(searchImage, page)` call produced: its
      `hits` and `totalHits`, or the `message` of what it threw. */
  datatype Outcome = Found(hits: seq<Image>, totalHits: nat) | Failed(message: string)

  /** The toasts the component raises. */
  datatype Notice =
    | WentWrong(error: Option<string>)   // toast.error, on a change of `error`
    | NoImages                           // toast.error, on a fetch with zero hits
    | NoMoreImages                       // toast.success, when the last page has been reached

  datatype State = State(
    searchImage: string,
    status: Status,
    page: nat,
    images: seq<Image>,
    totalPages: Option<nat>,   // null until the first fetch with hits
    showModal: bool,
    largeImageURL: string,
    tags: Option<string>,      // absent from the initial state
    error: Option<string>)     // null until the first failure

  /** Hits per page of the search service. */
  const PerPage: nat := 12

  function Initial(): State {
    State("", Idle, 1, [], None, false, "", None, None)
  }

  /** What holds of every state the component can reach from `Initial()`. */
  predicate Valid(s: State) {
    && s.page >= 1
    && (s.status == Error ==> s.error.Some?)
    && (s.status == Success ==> s.totalPages.Some?)
    && (s.images != [] ==> s.totalPages.Some?)
    && (s.showModal ==> s.tags.Some?)
  }

  /** Text of a toast; a null `error` is interpolated as "null". */
  function Message(n: Notice): string {
    match n
    case WentWrong(e) =>
      "Something went wrong! " + (match e case Some(m) => m case None => "null")
    case NoImages => "Sorry, there are no images matching your search query."
    case NoMoreImages => "Sorry, there are no more images matching your search query."
  }

  /** `Math.ceil(totalHits / 12)`, on naturals: the least number of pages of
      `PerPage` hits that hold `totalHits` hits. */
  function PageCount(totalHits: nat): (n: nat)
    ensures n * PerPage >= totalHits
    ensures n == 0 || (n - 1) * PerPage < totalHits
  {
    (totalHits + PerPage - 1) / PerPage
  }

  // ---- the batches of setState updates made by the handlers ----

  /** `handleSubmit`: new query, empty gallery, first page. */
  function Submitted(s: State, query: string): State {
    s.(searchImage := query, images := [], page := 1)
  }

  /** `onClickLodeMore`: the next page, with no guard of its own. */
  function PageAdvanced(s: State): State {
    s.(page := s.page + 1)
  }

  /** `openModal`. */
  function ModalOpened(s: State, largeImageURL: string, tags: string): State {
    s.(showModal := true, tags := Some(tags), largeImageURL := largeImageURL)
  }

  /** `closeModal`: the last image and tags stay in the state. */
  function ModalClosed(s: State): State {
    s.(showModal := false)
  }

  /** `addImages` before its `await`. */
  function FetchStarted(s: State): State {
    s.(status := Pending)
  }

  /** `addImages` after its `await`: the updates of one branch, applied together. */
  function FetchSettled(s: State, o: Outcome): State {
    match o
    case Failed(msg) => s.(error := Some(msg), status := Error)
    case Found(hits, totalHits) =>
      if |hits| == 0 then s.(status := Idle)
      else s.(status := Success, images := s.images + hits, totalPages := Some(PageCount(totalHits)))
  }

  /** Toasts `addImages` raises itself, before its updates are committed. */
  function SettleNotices(o: Outcome): seq<Notice> {
    if o.Found? && |o.hits| == 0 then [NoImages] else []
  }

  // ---- componentDidUpdate: comparisons of the previous and the next snapshot ----

  /** A new fetch is started. */
  predicate ShouldFetch(prev: State, next: State) {
    prev.searchImage != next.searchImage || prev.page != next.page
  }

  /** The error toast is raised. */
  predicate ErrorChanged(prev: State, next: State) {
    prev.error != next.error
  }

  /** The "no more images" toast is raised. */
  predicate Exhausted(prev: State, next: State) {
    Some(next.page) == next.totalPages && prev.status == Pending
  }

  /** The "no more images" toast, when `Exhausted` holds. */
  function NoMoreIf(prev: State, next: State): seq<Notice> {
    if Exhausted(prev, next) then [NoMoreImages] else []
  }

  /** The toasts one `componentDidUpdate` raises, in order. */
  function UpdateNotices(prev: State, next: State): seq<Notice>
  {
    (if ErrorChanged(prev, next) then [WentWrong(next.error)] else []) + NoMoreIf(prev, next)
  }

  // ---- render ----

  /** The "load more" button is shown. */
  predicate ShowLoadMore(s: State) {
    s.status == Success && Some(s.page) != s.totalPages
  }

  /** The loader is shown. */
  predicate ShowLoader(s: State) {
    s.status == Pending
  }

  // ---- steps and runs ----

  /** What can happen to the component: a user action, or the resolution of
      the fetch in flight. */
  datatype Event =
    | Submit(query: string)
    | LoadMore
    | OpenModal(largeImageURL: string, tags: string)
    | CloseModal
    | Settle(outcome: Outcome)

  /** A call `getImages(query, page)` made by `addImages`. */
  datatype Request = Request(query: string, page: nat)

  /** The state after a step, the toasts raised during it, in order, and the
      calls to the search service it made. */
  datatype Transition = Transition(state: State, notices: seq<Notice>, requests: seq<Request>)

  /** The commit of the batch that turned `prev` into `next`, after the
      handler itself raised `emitted`.  `componentDidUpdate` reads the
      committed `next`; the fetch it starts asks for the committed query and
      page, and its `setState({status: pending})` is committed afterwards,
      with a `componentDidUpdate` of its own that starts nothing, since
      neither `searchImage` nor `page` changes. */
  function Commit(prev: State, next: State, emitted: seq<Notice>): Transition {
    var ns := emitted + UpdateNotices(prev, next);
    if ShouldFetch(prev, next) then
      var pending := FetchStarted(next);
      Transition(pending, ns + UpdateNotices(next, pending), [Request(next.searchImage, next.page)])
    else
      Transition(next, ns, [])
  }

  /** One handler, its batch and the commit that follows it. */
  function Step(s: State, e: Event): (t: Transition)
    ensures Valid(s) ==> Valid(t.state)
    ensures t.state.error == s.error || (e.Settle? && e.outcome.Failed? && t.state.error == Some(e.outcome.message))
    ensures t.requests == [] || (t.requests == [Request(t.state.searchImage, t.state.page)] && t.state.status == Pending)
  {
    match e
    case Submit(q) => Commit(s, Submitted(s, q), [])
    case LoadMore => Commit(s, PageAdvanced(s), [])
    case OpenModal(url, tags) => Commit(s, ModalOpened(s, url, tags), [])
    case CloseModal => Commit(s, ModalClosed(s), [])
    case Settle(o) => Commit(s, FetchSettled(s, o), SettleNotices(o))
  }

  /** `step` applied to the events of `es` one after another, collecting
      the toasts and the requests of every step in order. */
  function Fold(step: (State, Event) -> Transition, s: State, es: seq<Event>): Transition
    decreases |es|
  {
    if es == [] then Transition(s, [], [])
    else
      var first := step(s, es[0]);
      var rest := Fold(step, first.state, es[1..]);
      Transition(rest.state, first.notices + rest.notices, first.requests + rest.requests)
  }

  /** The steps of `es` one after another, with all the toasts they raise and
      all the requests they make. */
  function Run(s: State, es: seq<Event>): Transition {
    Fold(Step, s, es)
  }
}
