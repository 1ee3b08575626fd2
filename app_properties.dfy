/**
  What the `App` component promises about its transitions, stated over the
  steps of `AppState` and proved from them: what each handler changes and
  keeps, when a fetch starts and for which page, which toasts are raised, how
  the pages of one query accumulate, and the two scenarios of a three-page
  query and of a query without results.
 */
module AppProperties {
  import opened AppState

  // ---- componentDidUpdate and render ----

  /** Which toasts a step raises.  "No more images" is raised exactly when
      the step began with a fetch in flight and ends on the last known page;
      the error toast exactly when the step is a failure whose message differs
      from the error recorded; "no images" exactly when the step is a fetch
      with zero hits. */
  lemma StepNotices(s: State, e: Event)
    ensures var t := Step(s, e);
      NoMoreImages in t.notices <==> s.status == Pending && t.state.totalPages == Some(t.state.page)
    ensures var t := Step(s, e);
      (exists m :: WentWrong(m) in t.notices)
        <==> e.Settle? && e.outcome.Failed? && s.error != Some(e.outcome.message)
    ensures var t := Step(s, e);
      NoImages in t.notices <==> e.Settle? && e.outcome.Found? && |e.outcome.hits| == 0
  {
    match e
    case Submit(q) => SubmitResets(s, q);
    case LoadMore => LoadMoreUnguarded(s);
    case OpenModal(url, tags) => ModalOnly(s, url, tags);
    case CloseModal => ModalOnly(s, "", "");
    case Settle(o) =>
      match o
      case Failed(msg) =>
        SettleWithFailure(s, msg);
        if s.error != Some(msg) {
          assert WentWrong(Some(msg)) in Step(s, e).notices;
        }
      case Found(hits, totalHits) =>
        if |hits| == 0 {
          assert hits == [];
          SettleWithoutHits(s, totalHits);
        } else {
          SettleWithHits(s, hits, totalHits);
        }
  }

  /** The texts of the toasts: the error toast carries the recorded
      message, so two error toasts with different messages read differently,
      and the two "no images" toasts read differently. */
  lemma MessageTexts(a: string, b: string)
    ensures Message(WentWrong(Some(a))) == "Something went wrong! " + a
    ensures Message(WentWrong(Some(a))) == Message(WentWrong(Some(b))) ==> a == b
    ensures Message(NoImages) != Message(NoMoreImages)
  {
    var prefix := "Something went wrong! ";
    var wa := Message(WentWrong(Some(a)));
    assert wa == prefix + a;
    if wa == Message(WentWrong(Some(b))) {
      assert a == wa[|prefix|..];
    }
    assert |Message(NoImages)| == 54 && |Message(NoMoreImages)| == 59;
  }

  /** A step that starts a fetch ends with the loader shown and the "load
      more" button hidden.  After a fetch with hits the button is shown
      exactly when the current page is not the page count of `totalHits`; the
      test is one of inequality, so a page past the count keeps the button. */
  lemma StepViewFlags(s: State, e: Event)
    ensures Step(s, e).requests != [] ==> ShowLoader(Step(s, e).state) && !ShowLoadMore(Step(s, e).state)
    ensures e.Settle? && e.outcome.Found? && |e.outcome.hits| > 0 ==>
      (ShowLoadMore(Step(s, e).state) <==> s.page != PageCount(e.outcome.totalHits))
      && !ShowLoader(Step(s, e).state)
    ensures e.Settle? && e.outcome.Found? && |e.outcome.hits| > 0 && s.page > PageCount(e.outcome.totalHits) ==>
      ShowLoadMore(Step(s, e).state)
    ensures ShowLoadMore(Step(s, e).state) ==> !ShowLoader(Step(s, e).state)
  {
    if e.Settle? && e.outcome.Found? && |e.outcome.hits| > 0 {
      SettleWithHits(s, e.outcome.hits, e.outcome.totalHits);
    }
  }

  /** `PageCount` is the ceiling of `totalHits / 12`: 25 hits make 3 pages. */
  lemma PageCountExamples()
    ensures PageCount(0) == 0 && PageCount(1) == 1 && PageCount(12) == 1
    ensures PageCount(13) == 2 && PageCount(25) == 3
  {
  }

  // ---- one step at a time ----

  /** Submitting a query resets the query, the gallery and the page, keeps
      `totalPages`, `error` and the modal fields, and asks for the first page
      of the query exactly when the query or the page changed. */
  lemma SubmitResets(s: State, q: string)
    ensures var t := Step(s, Submit(q));
      && t.state.searchImage == q && t.state.images == [] && t.state.page == 1
      && t.state.totalPages == s.totalPages && t.state.error == s.error
      && t.state.showModal == s.showModal && t.state.largeImageURL == s.largeImageURL
      && t.state.tags == s.tags
      && t.state.status == (if q != s.searchImage || s.page != 1 then Pending else s.status)
      && t.requests == (if q != s.searchImage || s.page != 1 then [Request(q, 1)] else [])
    ensures Step(s, Submit(q)).notices ==
      if s.status == Pending && s.totalPages == Some(1) then
        (if q != s.searchImage || s.page != 1 then [NoMoreImages, NoMoreImages] else [NoMoreImages])
      else []
  {
  }

  /** Submitting the current query again while on the first page only empties
      the gallery: no fetch starts, so the status is what it was.  While a
      fetch is in flight and `totalPages` is 1, the commit still raises "no
      more images". */
  lemma ResubmitOnFirstPage(s: State)
    requires s.page == 1
    ensures Step(s, Submit(s.searchImage)) == Transition(s.(images := []), NoMoreIf(s, s.(images := [])), [])
  {
  }

  /** Load-more has no guard: whatever the status and the page, it moves to
      the next page and asks for it, and changes nothing else. */
  lemma LoadMoreUnguarded(s: State)
    ensures Step(s, LoadMore).state == s.(page := s.page + 1, status := Pending)
    ensures Step(s, LoadMore).requests == [Request(s.searchImage, s.page + 1)]
    ensures Step(s, LoadMore).notices ==
      if s.status == Pending && s.totalPages == Some(s.page + 1) then [NoMoreImages, NoMoreImages] else []
  {
  }

  /** A fetch with hits appends them after the images already there, sets
      `totalPages` to the page count of `totalHits` and ends in success. */
  lemma SettleWithHits(s: State, hits: seq<Image>, totalHits: nat)
    requires |hits| > 0
    ensures var t := Step(s, Settle(Found(hits, totalHits)));
      && t.state == s.(status := Success, images := s.images + hits, totalPages := Some(PageCount(totalHits)))
      && |t.state.images| == |s.images| + |hits|
      && t.state.images[..|s.images|] == s.images && t.state.images[|s.images|..] == hits
      && t.notices == (if s.status == Pending && s.page == PageCount(totalHits) then [NoMoreImages] else [])
      && t.requests == []
  {
    var t := Step(s, Settle(Found(hits, totalHits)));
    assert t.state.images == s.images + hits;
  }

  /** A fetch with zero hits keeps the images and `totalPages`, ends idle and
      raises the "no images" toast first. */
  lemma SettleWithoutHits(s: State, totalHits: nat)
    ensures var t := Step(s, Settle(Found([], totalHits)));
      && t.state == s.(status := Idle)
      && t.notices == [NoImages] + NoMoreIf(s, s.(status := Idle))
      && t.requests == []
  {
  }

  /** A failed fetch records its message and ends in error, keeping the
      images, the page and `totalPages`; its toast is raised only when the
      message differs from the error already recorded. */
  lemma SettleWithFailure(s: State, msg: string)
    ensures var t := Step(s, Settle(Failed(msg)));
      && t.state == s.(error := Some(msg), status := Error)
      && t.notices == (if s.error != Some(msg) then [WentWrong(Some(msg))] else []) + NoMoreIf(s, t.state)
      && (WentWrong(Some(msg)) in t.notices <==> s.error != Some(msg))
      && t.requests == []
  {
  }

  /** Opening the modal sets the image and its tags and shows it; closing it
      only hides it, keeping the last image and tags.  Neither starts a fetch;
      the only toast either can raise is "no more images", when a fetch of the
      last known page is in flight. */
  lemma ModalOnly(s: State, url: string, tags: string)
    ensures Step(s, OpenModal(url, tags)).state == s.(showModal := true, largeImageURL := url, tags := Some(tags))
    ensures Step(s, CloseModal).state == s.(showModal := false)
    ensures Step(s, OpenModal(url, tags)).notices == NoMoreIf(s, s)
    ensures Step(s, CloseModal).notices == NoMoreIf(s, s)
    ensures Step(s, OpenModal(url, tags)).requests == [] && Step(s, CloseModal).requests == []
  {
  }

  // ---- runs ----

  lemma {:induction false} FoldConcat(step: (State, Event) -> Transition, s: State, a: seq<Event>, b: seq<Event>)
    ensures var ta := Fold(step, s, a); var tb := Fold(step, ta.state, b);
      Fold(step, s, a + b) == Transition(tb.state, ta.notices + tb.notices, ta.requests + tb.requests)
    decreases |a|
  {
    if a == [] {
      assert a + b == b;
    } else {
      var first := step(s, a[0]);
      var ta' := Fold(step, first.state, a[1..]);
      var tb := Fold(step, ta'.state, b);
      assert (a + b)[0] == a[0];
      assert (a + b)[1..] == a[1..] + b;
      FoldConcat(step, first.state, a[1..], b);
      assert first.notices + (ta'.notices + tb.notices) == (first.notices + ta'.notices) + tb.notices;
      assert first.requests + (ta'.requests + tb.requests) == (first.requests + ta'.requests) + tb.requests;
    }
  }

  /** Running `a` and then `b` is running `a + b`. */
  lemma RunConcat(s: State, a: seq<Event>, b: seq<Event>)
    ensures var ta := Run(s, a); var tb := Run(ta.state, b);
      Run(s, a + b) == Transition(tb.state, ta.notices + tb.notices, ta.requests + tb.requests)
  {
    FoldConcat(Step, s, a, b);
  }

  /** A run that starts with `e` is the step of `e` followed by the rest. */
  lemma RunCons(s: State, e: Event, rest: seq<Event>)
    ensures var first := Step(s, e); var tail := Run(first.state, rest);
      Run(s, [e] + rest)
        == Transition(tail.state, first.notices + tail.notices, first.requests + tail.requests)
  {
    assert ([e] + rest)[0] == e;
    assert ([e] + rest)[1..] == rest;
  }

  /** Every state reached from a valid state is valid, and once an error has
      been recorded there is one in every later state: nothing clears it. */
  lemma {:induction false} RunKeepsValid(s: State, es: seq<Event>)
    requires Valid(s)
    ensures Valid(Run(s, es).state)
    ensures s.error.Some? ==> Run(s, es).state.error.Some?
    decreases |es|
  {
    if es != [] {
      assert es == [es[0]] + es[1..];
      RunCons(s, es[0], es[1..]);
      RunKeepsValid(Step(s, es[0]).state, es[1..]);
    }
  }

  /** A run of two steps. */
  lemma RunPair(s: State, e1: Event, e2: Event)
    ensures var t1 := Step(s, e1); var t2 := Step(t1.state, e2);
      Run(s, [e1, e2]) == Transition(t2.state, t1.notices + t2.notices, t1.requests + t2.requests)
  {
    var t1 := Step(s, e1);
    var t2 := Step(t1.state, e2);
    RunCons(s, e1, [e2]);
    RunCons(t1.state, e2, []);
    assert [e1] + [e2] == [e1, e2];
    assert [e2] + [] == [e2];
    assert Run(t2.state, []) == Transition(t2.state, [], []);
    assert t2.notices + [] == t2.notices;
    assert t2.requests + [] == t2.requests;
  }

  /** After a failure, a load-more and the same failure again raise no
      error toast: the recorded error has not changed. */
  lemma SameFailureNotRenotified(s: State, msg: string)
    ensures var failed := Step(s, Settle(Failed(msg))).state;
      var t := Run(failed, [LoadMore, Settle(Failed(msg))]);
      && t.state.error == Some(msg) && t.state.status == Error
      && forall n :: n in t.notices ==> !n.WentWrong?
  {
    var failed := Step(s, Settle(Failed(msg))).state;
    SettleWithFailure(s, msg);
    LoadMoreUnguarded(failed);
    var loading := Step(failed, LoadMore);
    SettleWithFailure(loading.state, msg);
    RunPair(failed, LoadMore, Settle(Failed(msg)));
  }

  /** The images of `pages`, in order. */
  function Concat(pages: seq<seq<Image>>): seq<Image> {
    if pages == [] then [] else pages[0] + Concat(pages[1..])
  }

  /** The number of images in `pages`. */
  function HitCount(pages: seq<seq<Image>>): nat {
    if pages == [] then 0 else |pages[0]| + HitCount(pages[1..])
  }

  lemma {:induction false} ConcatLength(pages: seq<seq<Image>>)
    ensures |Concat(pages)| == HitCount(pages)
  {
    if pages != [] {
      ConcatLength(pages[1..]);
    }
  }

  /** The requests for the `n` pages after page `from` of `query`. */
  function PagesAfter(query: string, from: nat, n: nat): (r: seq<Request>)
    ensures |r| == n
    ensures forall i :: 0 <= i < n ==> r[i] == Request(query, from + 1 + i)
    decreases n
  {
    if n == 0 then [] else [Request(query, from + 1)] + PagesAfter(query, from + 1, n - 1)
  }

  /** A load-more click followed by the fetch it starts returning `pages[i]`,
      for each page in turn; every answer reports `totalHits`. */
  function LoadPages(pages: seq<seq<Image>>, totalHits: nat): (es: seq<Event>)
    ensures |es| == 2 * |pages|
  {
    if pages == [] then []
    else [LoadMore, Settle(Found(pages[0], totalHits))] + LoadPages(pages[1..], totalHits)
  }

  /** One load-more click and the fetch it starts, returning `hits`. */
  lemma LoadOnePage(s: State, hits: seq<Image>, totalHits: nat)
    requires s.status != Pending && |hits| > 0
    ensures Run(s, [LoadMore, Settle(Found(hits, totalHits))]) == Transition(
      s.(page := s.page + 1, status := Success, images := s.images + hits, totalPages := Some(PageCount(totalHits))),
      if s.page + 1 == PageCount(totalHits) then [NoMoreImages] else [],
      [Request(s.searchImage, s.page + 1)])
  {
    LoadMoreUnguarded(s);
    SettleWithHits(Step(s, LoadMore).state, hits, totalHits);
    RunPair(s, LoadMore, Settle(Found(hits, totalHits)));
  }

  /** The state, toasts and requests after loading `pages` from `s`, in
      closed form. */
  function PagesLoaded(s: State, pages: seq<seq<Image>>, totalHits: nat): Transition {
    if pages == [] then Transition(s, [], [])
    else Transition(
      s.(page := s.page + |pages|, status := Success, images := s.images + Concat(pages),
         totalPages := Some(PageCount(totalHits))),
      if s.page < PageCount(totalHits) <= s.page + |pages| then [NoMoreImages] else [],
      PagesAfter(s.searchImage, s.page, |pages|))
  }

  /** Loading further pages is the closed form `PagesLoaded`. */
  lemma {:induction false} LoadingPages(s: State, pages: seq<seq<Image>>, totalHits: nat)
    requires s.status != Pending
    requires forall i :: 0 <= i < |pages| ==> |pages[i]| > 0
    ensures Run(s, LoadPages(pages, totalHits)) == PagesLoaded(s, pages, totalHits)
    decreases |pages|
  {
    if pages != [] {
      OnePageLoaded(s, pages[0], totalHits);
      var loaded := PagesLoaded(s, [pages[0]], totalHits);
      assert forall i :: 0 <= i < |pages[1..]| ==> |pages[1..][i]| > 0 by {
        forall i | 0 <= i < |pages[1..]| ensures |pages[1..][i]| > 0 {
          assert pages[1..][i] == pages[i + 1];
        }
      }
      LoadingPages(loaded.state, pages[1..], totalHits);
      LoadPagesCons(s, pages, totalHits);
      PagesLoadedCons(s, pages, totalHits);
    }
  }

  /** One page, in closed form. */
  lemma OnePageLoaded(s: State, hits: seq<Image>, totalHits: nat)
    requires s.status != Pending && |hits| > 0
    ensures Run(s, [LoadMore, Settle(Found(hits, totalHits))]) == PagesLoaded(s, [hits], totalHits)
  {
    LoadOnePage(s, hits, totalHits);
    assert Concat([hits]) == hits + Concat([]);
    assert PagesAfter(s.searchImage, s.page, 1) == [Request(s.searchImage, s.page + 1)] + PagesAfter(s.searchImage, s.page + 1, 0);
  }

  /** The closed form of a non-empty list of pages is that of its first page
      followed by that of the others. */
  lemma PagesLoadedCons(s: State, pages: seq<seq<Image>>, totalHits: nat)
    requires pages != []
    ensures var loaded := PagesLoaded(s, [pages[0]], totalHits);
      var after := PagesLoaded(loaded.state, pages[1..], totalHits);
      PagesLoaded(s, pages, totalHits)
        == Transition(after.state, loaded.notices + after.notices, loaded.requests + after.requests)
  {
    assert Concat([pages[0]]) == pages[0] + Concat([]);
    assert PagesAfter(s.searchImage, s.page, 1) == [Request(s.searchImage, s.page + 1)] + PagesAfter(s.searchImage, s.page + 1, 0);
    assert PagesAfter(s.searchImage, s.page, |pages|)
      == [Request(s.searchImage, s.page + 1)] + PagesAfter(s.searchImage, s.page + 1, |pages| - 1);
    assert s.images + pages[0] + Concat(pages[1..]) == s.images + Concat(pages);
  }

  /** Loading further pages of one query asks for the following pages in
      turn, appends their hits in fetch order, and raises one "no more
      images" toast, on the fetch of page `PageCount(totalHits)` if the run
      reaches it. */
  lemma LoadingPagesAccumulates(s: State, pages: seq<seq<Image>>, totalHits: nat)
    requires s.status != Pending
    requires forall i :: 0 <= i < |pages| ==> |pages[i]| > 0
    ensures var t := Run(s, LoadPages(pages, totalHits));
      && t.state.images == s.images + Concat(pages)
      && |t.state.images| == |s.images| + HitCount(pages)
      && t.state.page == s.page + |pages|
      && t.state.searchImage == s.searchImage && t.state.error == s.error
      && t.state.showModal == s.showModal && t.state.largeImageURL == s.largeImageURL && t.state.tags == s.tags
      && (|pages| == 0 ==> t.state == s)
      && (|pages| > 0 ==> t.state.status == Success && t.state.totalPages == Some(PageCount(totalHits)))
      && t.notices == (if s.page < PageCount(totalHits) <= s.page + |pages| then [NoMoreImages] else [])
      && t.requests == PagesAfter(s.searchImage, s.page, |pages|)
  {
    LoadingPages(s, pages, totalHits);
    ConcatLength(pages);
  }

  /** The run of a non-empty list of pages is the run of its first page
      followed by the run of the others. */
  lemma LoadPagesCons(s: State, pages: seq<seq<Image>>, totalHits: nat)
    requires pages != []
    ensures var loaded := Run(s, [LoadMore, Settle(Found(pages[0], totalHits))]);
      var after := Run(loaded.state, LoadPages(pages[1..], totalHits));
      Run(s, LoadPages(pages, totalHits))
        == Transition(after.state, loaded.notices + after.notices, loaded.requests + after.requests)
  {
    var first := [LoadMore, Settle(Found(pages[0], totalHits))];
    assert LoadPages(pages, totalHits) == first + LoadPages(pages[1..], totalHits);
    RunConcat(s, first, LoadPages(pages[1..], totalHits));
  }

  /** A failure while loading a further page keeps every image of the pages
      loaded before it and records the failure. */
  lemma FailureKeepsLoadedPages(s: State, pages: seq<seq<Image>>, totalHits: nat, msg: string)
    requires s.status != Pending
    requires forall i :: 0 <= i < |pages| ==> |pages[i]| > 0
    ensures var t := Run(s, LoadPages(pages, totalHits) + [LoadMore, Settle(Failed(msg))]).state;
      && t.images == s.images + Concat(pages)
      && t.page == s.page + |pages| + 1
      && t.status == Error && t.error == Some(msg)
  {
    LoadingPagesAccumulates(s, pages, totalHits);
    var loaded := Run(s, LoadPages(pages, totalHits)).state;
    RunConcat(s, LoadPages(pages, totalHits), [LoadMore, Settle(Failed(msg))]);
    LoadMoreUnguarded(loaded);
    SettleWithFailure(Step(loaded, LoadMore).state, msg);
    RunPair(loaded, LoadMore, Settle(Failed(msg)));
  }

  // ---- scenarios ----

  /** "cats", first page: 12 of 25 hits. */
  lemma FirstPageOfThree(p1: seq<Image>)
    requires |p1| == 12
    ensures Run(Initial(), [Submit("cats"), Settle(Found(p1, 25))])
      == Transition(State("cats", Success, 1, p1, Some(3), false, "", None, None), [], [Request("cats", 1)])
  {
    RunPair(Initial(), Submit("cats"), Settle(Found(p1, 25)));
    SubmitResets(Initial(), "cats");
    var submitted := Step(Initial(), Submit("cats")).state;
    SettleWithHits(submitted, p1, 25);
  }

  /** "cats": 25 hits in all, served as 12, 12 and 1.  The button is shown
      after the first page, hidden after the third, "no more images" is the
      only toast, and pages 1, 2 and 3 are asked for once each. */
  lemma ThreePageQuery(p1: seq<Image>, p2: seq<Image>, p3: seq<Image>)
    requires |p1| == 12 && |p2| == 12 && |p3| == 1
    ensures var first := Run(Initial(), [Submit("cats"), Settle(Found(p1, 25))]);
      && first.state.totalPages == Some(3) && first.state.status == Success && ShowLoadMore(first.state)
    ensures var t := Run(Initial(), [Submit("cats"), Settle(Found(p1, 25))] + LoadPages([p2, p3], 25));
      && t.state.images == p1 + p2 + p3 && |t.state.images| == 25
      && t.state.page == 3 && t.state.totalPages == Some(3)
      && t.state.status == Success && !ShowLoadMore(t.state)
      && t.notices == [NoMoreImages]
      && t.requests == [Request("cats", 1), Request("cats", 2), Request("cats", 3)]
  {
    FirstPageOfThree(p1);
    var first := State("cats", Success, 1, p1, Some(3), false, "", None, None);
    var start := [Submit("cats"), Settle(Found(p1, 25))];
    var rest := LoadPages([p2, p3], 25);
    RunConcat(Initial(), start, rest);
    LoadingPagesAccumulates(first, [p2, p3], 25);
    assert [p2, p3][1..] == [p3] && [p3][1..] == [];
    assert Concat([p3]) == p3 + Concat([]);
    assert Concat([p2, p3]) == p2 + p3;
    var more := PagesAfter("cats", 1, 2);
    assert more == [Request("cats", 2), Request("cats", 3)] by {
      assert more[0] == Request("cats", 2) && more[1] == Request("cats", 3);
    }
  }

  /** "zzzqqq123": no hits.  The gallery stays empty, the status returns to
      idle and "no images" is the only toast. */
  lemma QueryWithoutResults()
    ensures var t := Run(Initial(), [Submit("zzzqqq123"), Settle(Found([], 0))]);
      && t.state.images == [] && t.state.status == Idle && t.state.page == 1
      && t.notices == [NoImages]
      && t.requests == [Request("zzzqqq123", 1)]
  {
    RunPair(Initial(), Submit("zzzqqq123"), Settle(Found([], 0)));
  }
}
