/**
 * The paginated article list (src/app/shared/components/article-list/article-list.ts).
 *
 * The component is a small state machine.  `ListState` is its abstract state,
 * the functions below are its steps, and the class `ArticleList` holds the
 * same state in fields and performs each step in place.  The asynchronous
 * fetch is split into a begin step (which yields the requested window) and a
 * settle step (which receives the response).  Each scroll frame is one step
 * whose input is the geometric "near bottom" test.
 */
module ArticleListing {
  import opened Wrappers
  import opened Articles
  import opened Fetch

  /** `private pageSize = 20`. */
  const PageSize: nat := 20

  /** Progress of `loadInitialArticles`, called once from `ngOnInit`. */
  datatype Phase = NotStarted | Pending | Done

  /**
   * The component's fields, plus the state hidden in the promise and in the
   * rxjs pipeline: whether the initial and the continuation fetch are
   * outstanding, whether the scroll subscription exists, and the last value
   * `distinctUntilChanged` let through (`None` before the first one).
   * The `exhaustMap` inner observable is `from(loadMoreArticles())`, so it is
   * active exactly while `morePending` holds.
   */
  datatype ListState = ListState(
    articles: seq<Article>,
    isLoading: bool,
    isLoadingMore: bool,
    hasError: bool,
    isRequestInProgress: bool,
    initialLoad: Phase,
    subscribed: bool,
    lastNearBottom: Option<bool>,
    morePending: bool)

  /** The state of a freshly constructed component. */
  function Initial(): ListState
  {
    ListState([], true, false, false, false, NotStarted, false, None, false)
  }

  /** The consistency every reachable state keeps. */
  predicate Inv(s: ListState)
  {
    && (s.isLoadingMore <==> s.morePending)
    && (s.morePending ==> s.isRequestInProgress)
    && (s.initialLoad != Done ==>
          s.isLoading && s.articles == [] && !s.isRequestInProgress && !s.morePending)
    && (s.initialLoad == Done ==> !s.isLoading)
  }

  /** `loadInitialArticles` up to its `await`: the flags it sets and the window it asks for. */
  function BeginInitialLoad(s: ListState): (ListState, Window)
  {
    (s.(isLoading := true, hasError := false, initialLoad := Pending), Window(0, PageSize))
  }

  /** The rest of `loadInitialArticles`, once the fetch settles (the try, catch and finally blocks). */
  function SettleInitialLoad(s: ListState, response: Response<seq<Article>>): ListState
  {
    var settled := match response
      case Resolved(page) => s.(articles := page)
      case Rejected => s.(hasError := true);
    settled.(isLoading := false, initialLoad := Done)
  }

  /** `ngAfterViewInit`: the scroll subscription exists only on the browser platform. */
  function AfterViewInit(s: ListState, isBrowser: bool): ListState
  {
    if isBrowser then s.(subscribed := true, lastNearBottom := None) else s
  }

  /**
   * `loadMoreArticles` up to its `await`: it returns at once while a request
   * is in progress, and otherwise asks for the window that continues the list.
   */
  function BeginLoadMore(s: ListState): (r: (ListState, Option<Window>))
    ensures s.isRequestInProgress ==> r == (s, None)
    ensures !s.isRequestInProgress ==>
      && r.1 == Some(Window(|s.articles|, |s.articles| + PageSize))
      && r.0.isRequestInProgress && r.0.isLoadingMore && !r.0.hasError
      && r.0.articles == s.articles
  {
    if s.isRequestInProgress then (s, None)
    else
      var n := |s.articles|;
      (s.(isRequestInProgress := true, isLoadingMore := true, hasError := false, morePending := true),
       Some(NextWindow(n, PageSize)))
  }

  /**
   * The rest of `loadMoreArticles`, once the fetch settles.  The `finally`
   * block clears `isLoadingMore`; the reset of `isRequestInProgress` is
   * commented out in the source, so the flag stays set.
   */
  function SettleLoadMore(s: ListState, response: Response<seq<Article>>): ListState
  {
    var settled := match response
      case Resolved(page) => if |page| == 0 then s else s.(articles := s.articles + page)
      case Rejected => s.(hasError := true);
    settled.(isLoadingMore := false, morePending := false)
  }

  /** True when the pipeline's first `filter` lets a scroll frame through. */
  predicate PassesGate(s: ListState)
  {
    s.subscribed && |s.articles| > 0 && !s.isRequestInProgress
  }

  /** The value the pipeline's `map` computes from the geometric test. */
  function NearBottomValue(s: ListState, nearBottom: bool): bool
  {
    nearBottom && !s.isLoading && !s.isLoadingMore
  }

  /**
   * One animation frame of the scroll pipeline: the gate `filter`, the `map`
   * to the near-bottom value, `distinctUntilChanged`, `filter(Boolean)`, and
   * `exhaustMap`, which drops a trigger while its inner load is active.
   * The result is the new state and the window fetched, if any.
   */
  function ScrollSample(s: ListState, nearBottom: bool): (r: (ListState, Option<Window>))
    ensures r.1.Some? <==>
      && PassesGate(s) && NearBottomValue(s, nearBottom)
      && s.lastNearBottom != Some(true) && !s.morePending
    ensures r.1.Some? ==> r.1.value == Window(|s.articles|, |s.articles| + PageSize)
    ensures r.0.articles == s.articles
    ensures r.1.None? ==>
      r.0 == s || r.0 == s.(lastNearBottom := Some(NearBottomValue(s, nearBottom)))
    ensures !PassesGate(s) ==> r == (s, None)
  {
    if !PassesGate(s) then (s, None)
    else
      var v := NearBottomValue(s, nearBottom);
      if s.lastNearBottom == Some(v) then (s, None)
      else
        var s1 := s.(lastNearBottom := Some(v));
        if !v then (s1, None)
        else if s1.morePending then (s1, None)
        else BeginLoadMore(s1)
  }

  /**
   * The geometric test at article-list.ts:64-68 on integer pixels:
   * `scrollY + innerHeight >= scrollHeight - innerHeight * 0.2`, scaled by 5.
   */
  function NearBottom(scrollY: int, innerHeight: int, scrollHeight: int): (near: bool)
    ensures near <==> (scrollY + innerHeight) as real >= scrollHeight as real - innerHeight as real * 0.2
  {
    5 * (scrollY + innerHeight) >= 5 * scrollHeight - innerHeight
  }

  // ---------------------------------------------------------------------
  // Properties of single steps

  lemma InitialLoadResolved(s: ListState, page: seq<Article>)
    ensures BeginInitialLoad(s).1 == Window(0, PageSize)
    ensures var t := SettleInitialLoad(BeginInitialLoad(s).0, Resolved(page));
      t.articles == page && !t.isLoading && !t.hasError
  {
  }

  lemma InitialLoadRejected(s: ListState)
    ensures var t := SettleInitialLoad(BeginInitialLoad(s).0, Rejected);
      t.articles == s.articles && t.hasError && !t.isLoading
  {
  }

  /** A non-empty page is appended after the old list; an empty page changes nothing and sets no error. */
  lemma LoadMoreResolved(s: ListState, page: seq<Article>)
    requires !s.isRequestInProgress
    ensures var t := SettleLoadMore(BeginLoadMore(s).0, Resolved(page));
      && t.articles == s.articles + page
      && t.articles[..|s.articles|] == s.articles
      && !t.hasError && !t.isLoadingMore && t.isRequestInProgress
      && (|page| == 0 ==> t.articles == s.articles)
  {
  }

  /** A failed continuation keeps every loaded article and reports the error. */
  lemma LoadMoreRejected(s: ListState)
    requires !s.isRequestInProgress
    ensures var t := SettleLoadMore(BeginLoadMore(s).0, Rejected);
      t.articles == s.articles && t.hasError && !t.isLoadingMore && t.isRequestInProgress
  {
  }

  // ---------------------------------------------------------------------
  // Runs: sequences of events from the component's lifetime

  /** A fetch issued by the component. */
  datatype Request = InitialRequest(window: Window) | ContinuationRequest(window: Window)

  /**
   * What can happen to the component: `ngOnInit`, `ngAfterViewInit` on a
   * platform, the initial fetch settling, one scroll frame, and the
   * continuation fetch settling.
   */
  datatype Event =
    | OnInit
    | ViewInit(isBrowser: bool)
    | InitialSettled(initialResponse: Response<seq<Article>>)
    | ScrollFrame(nearBottom: bool)
    | MoreSettled(moreResponse: Response<seq<Article>>)

  /**
   * One event.  Angular runs each lifecycle hook once, and a promise settles
   * only after its fetch began, so an event the lifecycle rules out leaves the
   * state alone.
   */
  function Next(s: ListState, e: Event): (ListState, Option<Request>)
  {
    match e
    case OnInit =>
      if s.initialLoad == NotStarted then
        var (t, w) := BeginInitialLoad(s); (t, Some(InitialRequest(w)))
      else (s, None)
    case ViewInit(isBrowser) =>
      if s.subscribed then (s, None) else (AfterViewInit(s, isBrowser), None)
    case InitialSettled(response) =>
      if s.initialLoad == Pending then (SettleInitialLoad(s, response), None) else (s, None)
    case ScrollFrame(nearBottom) =>
      var (t, w) := ScrollSample(s, nearBottom);
      (t, if w.Some? then Some(ContinuationRequest(w.value)) else None)
    case MoreSettled(response) =>
      if s.morePending then (SettleLoadMore(s, response), None) else (s, None)
  }

  /** The state after a run of events. */
  function Run(s: ListState, events: seq<Event>): ListState
    decreases |events|
  {
    if events == [] then s else Run(Next(s, events[0]).0, events[1..])
  }

  /** The fetches issued during a run of events, in order. */
  function Requests(s: ListState, events: seq<Event>): seq<Request>
    decreases |events|
  {
    if events == [] then []
    else
      var (t, r) := Next(s, events[0]);
      (if r.Some? then [r.value] else []) + Requests(t, events[1..])
  }

  function CountContinuations(rs: seq<Request>): nat
  {
    if rs == [] then 0
    else (if rs[0].ContinuationRequest? then 1 else 0) + CountContinuations(rs[1..])
  }

  function CountInitials(rs: seq<Request>): nat
  {
    if rs == [] then 0
    else (if rs[0].InitialRequest? then 1 else 0) + CountInitials(rs[1..])
  }

  lemma {:induction false} CountsOfConcat(a: seq<Request>, b: seq<Request>)
    ensures CountContinuations(a + b) == CountContinuations(a) + CountContinuations(b)
    ensures CountInitials(a + b) == CountInitials(a) + CountInitials(b)
  {
    if a != [] {
      assert (a + b)[1..] == a[1..] + b;
      CountsOfConcat(a[1..], b);
    } else {
      assert a + b == b;
    }
  }

  /**
   * One event keeps the invariant; `isRequestInProgress` is never cleared;
   * a continuation is requested only by the step that sets the flag, for the
   * window `[len, len + 20)`, and only after the initial load settled.
   */
  lemma NextStep(s: ListState, e: Event)
    ensures var (t, r) := Next(s, e);
      && (Inv(s) ==> Inv(t))
      && (s.isRequestInProgress ==> t.isRequestInProgress)
      && (s.initialLoad != NotStarted ==> t.initialLoad != NotStarted)
      && (r.Some? && r.value.ContinuationRequest? ==>
            && !s.isRequestInProgress && t.isRequestInProgress
            && r.value.window == Window(|s.articles|, |s.articles| + PageSize)
            && (Inv(s) ==> s.initialLoad == Done))
      && (r.Some? && r.value.InitialRequest? ==>
            s.initialLoad == NotStarted && r.value.window == Window(0, PageSize))
  {
  }

  /** Every state reached from a consistent state is consistent. */
  lemma {:induction false} RunKeepsInv(s: ListState, events: seq<Event>)
    requires Inv(s)
    ensures Inv(Run(s, events))
    decreases |events|
  {
    if events != [] {
      NextStep(s, events[0]);
      RunKeepsInv(Next(s, events[0]).0, events[1..]);
    }
  }

  /**
   * Whatever happens, at most one continuation fetch is issued, and none once
   * one has been: `isRequestInProgress` is set before the fetch and never reset.
   */
  lemma {:induction false} AtMostOneContinuation(s: ListState, events: seq<Event>)
    ensures CountContinuations(Requests(s, events)) <= if s.isRequestInProgress then 0 else 1
    decreases |events|
  {
    if events != [] {
      var (t, r) := Next(s, events[0]);
      NextStep(s, events[0]);
      AtMostOneContinuation(t, events[1..]);
      CountsOfConcat(if r.Some? then [r.value] else [], Requests(t, events[1..]));
    }
  }

  /** The initial window [0, 20) is requested at most once. */
  lemma {:induction false} AtMostOneInitial(s: ListState, events: seq<Event>)
    ensures CountInitials(Requests(s, events)) <= if s.initialLoad == NotStarted then 1 else 0
    decreases |events|
  {
    if events != [] {
      var (t, r) := Next(s, events[0]);
      NextStep(s, events[0]);
      AtMostOneInitial(t, events[1..]);
      CountsOfConcat(if r.Some? then [r.value] else [], Requests(t, events[1..]));
    }
  }

  /** Over a whole lifetime: one initial fetch at most, and one continuation at most. */
  lemma Lifetime(events: seq<Event>)
    ensures Inv(Run(Initial(), events))
    ensures CountInitials(Requests(Initial(), events)) <= 1
    ensures CountContinuations(Requests(Initial(), events)) <= 1
  {
    RunKeepsInv(Initial(), events);
    AtMostOneInitial(Initial(), events);
    AtMostOneContinuation(Initial(), events);
  }

  /** Once a continuation has been requested, no later run requests anything more. */
  lemma {:induction false} NothingAfterContinuation(s: ListState, events: seq<Event>)
    requires Inv(s) && s.isRequestInProgress
    ensures Requests(s, events) == []
    decreases |events|
  {
    if events != [] {
      NextStep(s, events[0]);
      NothingAfterContinuation(Next(s, events[0]).0, events[1..]);
    }
  }

  /**
   * A first page of 20 and a second page of 5 leave 25 articles; the
   * continuation asked for [20, 40), and a later near-bottom frame asks for
   * nothing, since the in-progress flag is never reset.
   */
  lemma TwentyThenFive(p20: seq<Article>, p5: seq<Article>)
    requires |p20| == 20 && |p5| == 5
    ensures var s1 := SettleInitialLoad(BeginInitialLoad(AfterViewInit(Initial(), true)).0, Resolved(p20));
      var (s2, w) := ScrollSample(s1, true);
      var s3 := SettleLoadMore(s2, Resolved(p5));
      && w == Some(Window(20, 40))
      && |s3.articles| == 25
      && ScrollSample(s3, true) == (s3, None)
  {
  }

  // ---------------------------------------------------------------------
  // The component

  class ArticleList {
    var articles: seq<Article>
    var isLoading: bool
    var isLoadingMore: bool
    var hasError: bool
    var isRequestInProgress: bool
    var initialLoad: Phase
    var subscribed: bool
    var lastNearBottom: Option<bool>
    var morePending: bool

    function State(): ListState
      reads this
    {
      ListState(articles, isLoading, isLoadingMore, hasError, isRequestInProgress,
                initialLoad, subscribed, lastNearBottom, morePending)
    }

    ghost predicate Valid()
      reads this
    {
      Inv(State())
    }

    constructor ()
      ensures Valid() && State() == Initial()
    {
      articles, isLoading, isLoadingMore, hasError := [], true, false, false;
      isRequestInProgress, initialLoad := false, NotStarted;
      subscribed, lastNearBottom, morePending := false, None, false;
    }

    /** `ngOnInit` calls `loadInitialArticles`; this is its part before the `await`. */
    method LoadInitialArticles() returns (w: Window)
      requires Valid() && initialLoad == NotStarted
      modifies this
      ensures Valid()
      ensures (State(), w) == BeginInitialLoad(old(State()))
    {
      isLoading := true;
      hasError := false;
      initialLoad := Pending;
      w := Window(0, PageSize);
    }

    /** The initial fetch settles. */
    method InitialArticlesSettled(response: Response<seq<Article>>)
      requires Valid() && initialLoad == Pending
      modifies this
      ensures Valid()
      ensures State() == SettleInitialLoad(old(State()), response)
    {
      match response {
        case Resolved(page) => articles := page;
        case Rejected => hasError := true;
      }
      isLoading := false;
      initialLoad := Done;
    }

    method NgAfterViewInit(isBrowser: bool)
      requires Valid() && !subscribed
      modifies this
      ensures Valid()
      ensures State() == AfterViewInit(old(State()), isBrowser)
    {
      if isBrowser {
        subscribed := true;
        lastNearBottom := None;
      }
    }

    /** `loadMoreArticles` before its `await`; its only caller runs after the initial load. */
    method LoadMoreArticles() returns (w: Option<Window>)
      requires Valid() && initialLoad == Done
      modifies this
      ensures Valid()
      ensures (State(), w) == BeginLoadMore(old(State()))
    {
      if isRequestInProgress {
        return None;
      }
      isRequestInProgress := true;
      isLoadingMore := true;
      hasError := false;
      morePending := true;
      var currentLength := |articles|;
      w := Some(Window(currentLength, currentLength + PageSize));
    }

    /** The continuation fetch settles. */
    method MoreArticlesSettled(response: Response<seq<Article>>)
      requires Valid() && morePending
      modifies this
      ensures Valid()
      ensures State() == SettleLoadMore(old(State()), response)
    {
      match response {
        case Resolved(page) =>
          if |page| > 0 {
            articles := articles + page;
          }
        case Rejected => hasError := true;
      }
      isLoadingMore := false;
      morePending := false;
    }

    /** One animation frame of the subscribed scroll pipeline. */
    method OnScrollFrame(nearBottom: bool) returns (w: Option<Window>)
      requires Valid()
      modifies this
      ensures Valid()
      ensures (State(), w) == ScrollSample(old(State()), nearBottom)
    {
      if !subscribed || |articles| == 0 || isRequestInProgress {
        return None;
      }
      var v := nearBottom && !isLoading && !isLoadingMore;
      if lastNearBottom == Some(v) {
        return None;
      }
      lastNearBottom := Some(v);
      if !v || morePending {
        return None;
      }
      w := LoadMoreArticles();
    }
  }
}
