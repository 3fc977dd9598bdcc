/**
 * The earlier feed page (src/app/components/feed/feed-page/feed-page.ts):
 * one `isLoading` flag guards both the initial fetch and every later one, the
 * trigger is "within 100 pixels of the bottom", and a rejected continuation
 * is not caught.
 */
module FeedPaging {
  import opened Wrappers
  import opened Articles
  import opened Fetch

  const PageSize: nat := 20
  /** The distance from the bottom, in pixels, at which a scroll event loads more. */
  const Threshold: int := 100

  /**
   * The page's two fields, whether the constructor's fetch or a scroll
   * handler's fetch is outstanding, and whether the scroll subscription exists.
   */
  datatype FeedState = FeedState(
    articles: seq<Article>,
    isLoading: bool,
    initialPending: bool,
    morePending: bool,
    listening: bool)

  /** The constructor: the state it leaves and the window `getFeed(0, 20)` asks for. */
  function Construct(): (FeedState, Window)
  {
    (FeedState([], true, true, false, false), Window(0, PageSize))
  }

  predicate Inv(s: FeedState)
  {
    && !(s.initialPending && s.morePending)
    && (s.initialPending ==> s.isLoading && s.articles == [])
    && (s.morePending ==> s.isLoading)
  }

  /** The constructor's `.then`, `.catch` and `.finally` once `getFeed(0, 20)` settles. */
  function SettleInitial(s: FeedState, response: Response<seq<Article>>): FeedState
  {
    var settled := match response
      case Resolved(page) => s.(articles := page)
      case Rejected => s;
    settled.(isLoading := false, initialPending := false)
  }

  /** `ngAfterViewInit`: nothing is subscribed when `window` is undefined. */
  function AfterViewInit(s: FeedState, hasWindow: bool): FeedState
  {
    if hasWindow then s.(listening := true) else s
  }

  /** True when the scroll handler's geometric test holds. */
  predicate NearBottom(scrollY: int, innerHeight: int, scrollHeight: int)
  {
    scrollY + innerHeight >= scrollHeight - Threshold
  }

  /**
   * One scroll event: the `filter` on a non-empty list, then the handler up
   * to its `await`.  The result is the new state and the window fetched, if any.
   */
  function OnScroll(s: FeedState, scrollY: int, innerHeight: int, scrollHeight: int): (r: (FeedState, Option<Window>))
    ensures r.1.Some? <==>
      s.listening && |s.articles| > 0 && NearBottom(scrollY, innerHeight, scrollHeight) && !s.isLoading
    ensures r.1.Some? ==>
      && r.1.value == Window(|s.articles|, |s.articles| + PageSize)
      && r.0 == s.(isLoading := true, morePending := true)
    ensures r.1.None? ==> r.0 == s
  {
    if !s.listening || |s.articles| == 0 then (s, None)
    else if NearBottom(scrollY, innerHeight, scrollHeight) && !s.isLoading then
      var n := |s.articles|;
      (s.(isLoading := true, morePending := true), Some(NextWindow(n, PageSize)))
    else (s, None)
  }

  /**
   * The handler after its `await`: a resolved page is appended and the flag
   * cleared; on a rejection the handler stops at the `await`, so `isLoading`
   * stays set.
   */
  function SettleMore(s: FeedState, response: Response<seq<Article>>): FeedState
  {
    match response
    case Resolved(next) => s.(articles := s.articles + next, isLoading := false, morePending := false)
    case Rejected => s.(morePending := false)
  }

  // ---------------------------------------------------------------------
  // Properties of single steps

  lemma ConstructionResolved(page: seq<Article>)
    ensures Construct().1 == Window(0, PageSize)
    ensures var t := SettleInitial(Construct().0, Resolved(page));
      t.articles == page && !t.isLoading
  {
  }

  lemma ConstructionRejected()
    ensures var t := SettleInitial(Construct().0, Rejected);
      t.articles == [] && !t.isLoading
  {
  }

  /** Scroll events are ignored while the list is empty and while a fetch is outstanding. */
  lemma ScrollIgnored(s: FeedState, scrollY: int, innerHeight: int, scrollHeight: int)
    requires Inv(s)
    requires s.articles == [] || s.initialPending || s.morePending
    ensures OnScroll(s, scrollY, innerHeight, scrollHeight) == (s, None)
  {
  }

  /** A resolved continuation appends its page after the old list and re-enables loading. */
  lemma ContinuationResolved(s: FeedState, scrollY: int, innerHeight: int, scrollHeight: int, next: seq<Article>)
    requires OnScroll(s, scrollY, innerHeight, scrollHeight).1.Some?
    ensures var t := SettleMore(OnScroll(s, scrollY, innerHeight, scrollHeight).0, Resolved(next));
      && t.articles == s.articles + next
      && t.articles[..|s.articles|] == s.articles
      && !t.isLoading
  {
  }

  // ---------------------------------------------------------------------
  // Runs

  datatype Event =
    | ViewInit(hasWindow: bool)
    | InitialSettled(initialResponse: Response<seq<Article>>)
    | Scroll(scrollY: int, innerHeight: int, scrollHeight: int)
    | MoreSettled(moreResponse: Response<seq<Article>>)

  /** One event; a settling without an outstanding fetch cannot happen and is ignored. */
  function Next(s: FeedState, e: Event): (FeedState, Option<Window>)
  {
    match e
    case ViewInit(hasWindow) => if s.listening then (s, None) else (AfterViewInit(s, hasWindow), None)
    case InitialSettled(response) =>
      if s.initialPending then (SettleInitial(s, response), None) else (s, None)
    case Scroll(scrollY, innerHeight, scrollHeight) => OnScroll(s, scrollY, innerHeight, scrollHeight)
    case MoreSettled(response) =>
      if s.morePending then (SettleMore(s, response), None) else (s, None)
  }

  function Run(s: FeedState, events: seq<Event>): FeedState
    decreases |events|
  {
    if events == [] then s else Run(Next(s, events[0]).0, events[1..])
  }

  /** The continuation windows requested during a run of events, in order. */
  function Requests(s: FeedState, events: seq<Event>): seq<Window>
    decreases |events|
  {
    if events == [] then []
    else
      var (t, w) := Next(s, events[0]);
      (if w.Some? then [w.value] else []) + Requests(t, events[1..])
  }

  /**
   * One event keeps the invariant, and a fetch starts only when none is
   * outstanding: `isLoading` is set in the same step that issues it.
   */
  lemma NextStep(s: FeedState, e: Event)
    requires Inv(s)
    ensures var (t, w) := Next(s, e);
      && Inv(t)
      && (w.Some? ==>
            && !s.initialPending && !s.morePending && !s.isLoading
            && t.morePending && t.isLoading
            && w.value == Window(|s.articles|, |s.articles| + PageSize))
  {
  }

  lemma {:induction false} RunKeepsInv(s: FeedState, events: seq<Event>)
    requires Inv(s)
    ensures Inv(Run(s, events))
    decreases |events|
  {
    if events != [] {
      NextStep(s, events[0]);
      RunKeepsInv(Next(s, events[0]).0, events[1..]);
    }
  }

  /** A page stuck after a rejected continuation: still loading, with nothing outstanding. */
  predicate Stuck(s: FeedState)
  {
    s.isLoading && !s.initialPending && !s.morePending
  }

  lemma RejectedContinuationSticks(s: FeedState, scrollY: int, innerHeight: int, scrollHeight: int)
    requires Inv(s)
    requires OnScroll(s, scrollY, innerHeight, scrollHeight).1.Some?
    ensures Stuck(SettleMore(OnScroll(s, scrollY, innerHeight, scrollHeight).0, Rejected))
  {
  }

  /**
   * After a rejected continuation, whatever happens, the page stays stuck,
   * its articles stay as they are, and nothing is fetched again.
   */
  lemma {:induction false} StuckForever(s: FeedState, events: seq<Event>)
    requires Stuck(s)
    ensures Stuck(Run(s, events)) && Run(s, events).articles == s.articles
    ensures Requests(s, events) == []
    decreases |events|
  {
    if events != [] {
      var (t, w) := Next(s, events[0]);
      assert Stuck(t) && t.articles == s.articles && w == None;
      StuckForever(t, events[1..]);
    }
  }

  // ---------------------------------------------------------------------
  // The component

  class FeedPage {
    var articles: seq<Article>
    var isLoading: bool
    var initialPending: bool
    var morePending: bool
    var listening: bool

    function State(): FeedState
      reads this
    {
      FeedState(articles, isLoading, initialPending, morePending, listening)
    }

    ghost predicate Valid()
      reads this
    {
      Inv(State())
    }

    /** The constructor issues `getFeed(0, 20)` (the window is `Construct().1`) and waits for it. */
    constructor ()
      ensures Valid() && State() == Construct().0
    {
      articles, isLoading := [], true;
      initialPending, morePending, listening := true, false, false;
    }

    method InitialFeedSettled(response: Response<seq<Article>>)
      requires Valid() && initialPending
      modifies this
      ensures Valid()
      ensures State() == SettleInitial(old(State()), response)
    {
      if response.Resolved? {
        articles := response.value;
      }
      isLoading := false;
      initialPending := false;
    }

    method NgAfterViewInit(hasWindow: bool)
      requires Valid() && !listening
      modifies this
      ensures Valid()
      ensures State() == AfterViewInit(old(State()), hasWindow)
    {
      if hasWindow {
        listening := true;
      }
    }

    /** One scroll event, up to the handler's `await`. */
    method OnScrollEvent(scrollY: int, innerHeight: int, scrollHeight: int) returns (w: Option<Window>)
      requires Valid()
      modifies this
      ensures Valid()
      ensures (State(), w) == OnScroll(old(State()), scrollY, innerHeight, scrollHeight)
    {
      if !listening || |articles| == 0 {
        return None;
      }
      var scrollPosition := scrollY + innerHeight;
      if scrollPosition >= scrollHeight - Threshold && !isLoading {
        isLoading := true;
        morePending := true;
        w := Some(Window(|articles|, |articles| + PageSize));
      } else {
        w := None;
      }
    }

    /** The scroll handler's fetch settles. */
    method MoreFeedSettled(response: Response<seq<Article>>)
      requires Valid() && morePending
      modifies this
      ensures Valid()
      ensures State() == SettleMore(old(State()), response)
    {
      morePending := false;
      if response.Resolved? {
        articles := articles + response.value;
        isLoading := false;
      }
    }
  }
}
