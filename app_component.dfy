/**
  The `App` component as an object whose fields its handlers update in place.
  Each handler makes its batch of updates and then runs the commit that
  follows (`ComponentDidUpdate`), which may start a fetch.  The awaited call
  to the search service is not part of the model: `requests` records each
  call made, and `ResolveFetch` receives its outcome.  The toasts raised so
  far are kept in `notices`.
 */
module AppComponent {
  import opened AppState

  class App {
    var searchImage: string
    var status: Status
    var page: nat
    var images: seq<Image>
    var totalPages: Option<nat>
    var showModal: bool
    var largeImageURL: string
    var tags: Option<string>
    var error: Option<string>
    var notices: seq<Notice>
    var requests: seq<Request>

    /** The state record as `this.state`. */
    function Snapshot(): State
      reads this
    {
      State(searchImage, status, page, images, totalPages, showModal, largeImageURL, tags, error)
    }

    predicate Valid()
      reads this
    {
      AppState.Valid(Snapshot())
    }

    constructor ()
      ensures Valid()
      ensures Snapshot() == Initial() && notices == [] && requests == []
    {
      searchImage, status, page, images, totalPages := "", Idle, 1, [], None;
      showModal, largeImageURL, tags, error := false, "", None, None;
      notices, requests := [], [];
    }

    /** The commit of a batch that changed the state from `prev`. */
    method ComponentDidUpdate(prev: State)
      modifies this
      ensures Snapshot() == Commit(prev, old(Snapshot()), []).state
      ensures notices == old(notices) + Commit(prev, old(Snapshot()), []).notices
      ensures requests == old(requests) + Commit(prev, old(Snapshot()), []).requests
    {
      var next := Snapshot();
      var fetch := ShouldFetch(prev, next);
      notices := notices + UpdateNotices(prev, next);
      if fetch {
        AddImages();
      }
    }

    /** `addImages` up to its `await`: the call for the current query and
        page, and the commit of its update, whose `componentDidUpdate` raises
        toasts but starts no fetch. */
    method AddImages()
      modifies this
      ensures Snapshot() == FetchStarted(old(Snapshot()))
      ensures status == Pending
      ensures notices == old(notices) + UpdateNotices(old(Snapshot()), Snapshot())
      ensures requests == old(requests) + [Request(searchImage, page)]
    {
      var prev := Snapshot();
      requests := requests + [Request(searchImage, page)];
      status := Pending;
      notices := notices + UpdateNotices(prev, Snapshot());
    }

    /** `addImages` after its `await`, given what the call produced. */
    method ResolveFetch(outcome: Outcome)
      requires Valid()
      modifies this
      ensures Valid()
      ensures page == old(page) && searchImage == old(searchImage)
      ensures outcome.Failed? ==> status == Error && error == Some(outcome.message) && images == old(images)
      ensures outcome.Found? && |outcome.hits| == 0 ==> status == Idle && images == old(images)
      ensures outcome.Found? && |outcome.hits| > 0 ==>
        status == Success && images == old(images) + outcome.hits
        && totalPages == Some(PageCount(outcome.totalHits))
      ensures Snapshot() == Step(old(Snapshot()), Settle(outcome)).state
      ensures notices == old(notices) + Step(old(Snapshot()), Settle(outcome)).notices
      ensures requests == old(requests) + Step(old(Snapshot()), Settle(outcome)).requests
    {
      var prev := Snapshot();
      var emitted := ApplyOutcome(outcome);
      notices := notices + emitted;
      ComponentDidUpdate(prev);
    }

    /** The updates of the branch of `addImages` that `outcome` selects, made
        together, and the toast that branch raises before they are committed. */
    method ApplyOutcome(outcome: Outcome) returns (emitted: seq<Notice>)
      modifies this
      ensures Snapshot() == FetchSettled(old(Snapshot()), outcome)
      ensures emitted == SettleNotices(outcome)
      ensures notices == old(notices) && requests == old(requests)
    {
      emitted := [];
      match outcome {
        case Failed(msg) =>
          error, status := Some(msg), Error;
        case Found(hits, totalHits) =>
          status := Success;
          if |hits| == 0 {
            emitted := [NoImages];
            status := Idle;
          } else {
            images := images + hits;
            totalPages := Some(PageCount(totalHits));
          }
      }
    }

    /** `handleSubmit`. */
    method HandleSubmit(query: string)
      requires Valid()
      modifies this
      ensures Valid()
      ensures searchImage == query && images == [] && page == 1
      ensures status == (if ShouldFetch(old(Snapshot()), Submitted(old(Snapshot()), query)) then Pending else old(status))
      ensures totalPages == old(totalPages) && error == old(error)
      ensures Snapshot() == Step(old(Snapshot()), Submit(query)).state
      ensures notices == old(notices) + Step(old(Snapshot()), Submit(query)).notices
      ensures requests == old(requests) + Step(old(Snapshot()), Submit(query)).requests
    {
      var prev := Snapshot();
      searchImage, images, page := query, [], 1;
      ComponentDidUpdate(prev);
    }

    /** `onClickLodeMore`. */
    method OnClickLoadMore()
      requires Valid()
      modifies this
      ensures Valid()
      ensures page == old(page) + 1 && status == Pending && images == old(images)
      ensures Snapshot() == Step(old(Snapshot()), LoadMore).state
      ensures notices == old(notices) + Step(old(Snapshot()), LoadMore).notices
      ensures requests == old(requests) + Step(old(Snapshot()), LoadMore).requests
    {
      var prev := Snapshot();
      page := page + 1;
      ComponentDidUpdate(prev);
    }

    /** `openModal`. */
    method OpenModal(url: string, imageTags: string)
      requires Valid()
      modifies this
      ensures Valid()
      ensures showModal && largeImageURL == url && tags == Some(imageTags)
      ensures Snapshot() == old(Snapshot()).(showModal := true, largeImageURL := url, tags := Some(imageTags))
      ensures notices == old(notices) + Step(old(Snapshot()), Event.OpenModal(url, imageTags)).notices
      ensures requests == old(requests) + Step(old(Snapshot()), Event.OpenModal(url, imageTags)).requests
    {
      var prev := Snapshot();
      showModal, tags, largeImageURL := true, Some(imageTags), url;
      ComponentDidUpdate(prev);
    }

    /** `closeModal`. */
    method CloseModal()
      requires Valid()
      modifies this
      ensures Valid()
      ensures Snapshot() == old(Snapshot()).(showModal := false)
      ensures notices == old(notices) + Step(old(Snapshot()), Event.CloseModal).notices
      ensures requests == old(requests) + Step(old(Snapshot()), Event.CloseModal).requests
    {
      var prev := Snapshot();
      showModal := false;
      ComponentDidUpdate(prev);
    }
  }
}
