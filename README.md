# fyrss-web client core, modelled in Dafny

This project models the client-side logic of fyrss-web, an Angular reader for
articles aggregated from RSS and scraped feeds. It covers:

- The paginated **article list** (`ArticleList`). This is the state machine
  behind the history, saved and single-feed views. It loads a first page
  of 20 articles. After that, scroll frames trigger continuation loads: a frame
  has to pass a gate, then an edge detector, then a drop-while-busy operator.
- The earlier **feed page** (`FeedPage`). It has a single `isLoading` flag and
  a 100-pixel threshold, and it does not catch a failed continuation fetch.
- **Theme handling**. The theme service stores the mode, reads it back and
  derives the effective dark flag. The toggle button cycles system → light →
  dark with an ARIA label to match.
- **Article card** record updates: the saved flag, the copy of `lastReadAt`,
  the read threshold, and URL shortening. Also the **feed card**'s URL
  truncation.
- Two **keyed stores**: saved scroll positions and per-feed last-read
  timestamps.
- The **tags page**'s priority flip and its replace-by-id list update.

Each asynchronous fetch has two steps. The *begin* step returns the requested
window `[from, to)`. The *settle* step takes a `Response`, which is
`Resolved(page)` or `Rejected`. The scroll pipeline runs one step per animation
frame. For the article list, the step's input is the geometric "near bottom"
test as a boolean. `NearBottom` gives that test on integer pixels, and its
contract says it equals the real-number comparison in the source. The feed
page takes integer pixel offsets directly. Instants are integers: milliseconds
since 1970-01-01T00:00:00Z.

The article list and the feed page are each written as a pure state machine
plus a class. The state machine is a datatype of the component's state and
one function per step. The class keeps the same state in fields. Each class
method changes the fields and promises that `State()` equals the matching step
function applied to the old state. Lemmas over arbitrary event sequences prove
what holds across a whole lifetime. Single flight is one example. For the
article list, at most one continuation fetch ever happens.

Modules: `Wrappers` (Option), `Fetch` (windows and responses), `JsStrings`
(JavaScript strings as UTF-16 code units), `Articles`
(the article record), `UrlText` (shared string helpers), `ArticleListing`,
`FeedPaging`, `Theme`, `ThemeToggling`, `ArticleCards`, `FeedCards`,
`ScrollPositions`, `FeedLastRead`, `TagsPaging`.

### Behaviour worth knowing

- The reset of `isRequestInProgress` at article-list.ts:132 is commented
  out, so an instance issues at most one continuation fetch
  (`AtMostOneContinuation`, `NothingAfterContinuation`). After pages of 20
  and 5, a third trigger asks for nothing (`TwentyThenFive`).
- Appending a page does not deduplicate articles by id, and neither does
  the model.
- URLs are JavaScript strings: sequences of UTF-16 code units (`JsStrings`).
  The 30-unit limit and the 27-unit cut count code units, so a cut can fall
  inside a surrogate pair (`TruncationCanSplitSurrogatePair`).

## Model

| member | source | states |
|---|---|---|
| `ArticleListing.InitialLoadResolved` | src/app/shared/components/article-list/article-list.ts:87-94 | The initial load asks for [0, 20). On success it replaces `articles` with exactly the returned page, clears `isLoading` and leaves `hasError` false. |
| `ArticleListing.InitialLoadRejected` | src/app/shared/components/article-list/article-list.ts:95-100 | A failed initial load sets `hasError`, leaves `articles` unchanged and clears `isLoading`. |
| `ArticleListing.BeginLoadMore` | src/app/shared/components/article-list/article-list.ts:103-117 | With a request in progress it returns at once and changes nothing. Otherwise it sets the in-progress and loading-more flags, clears `hasError` and asks for [len, len + 20), where len is the current list length. |
| `ArticleListing.LoadMoreResolved` | src/app/shared/components/article-list/article-list.ts:108-126 | A resolved continuation gives old ++ page, so the old prefix is kept. An empty page leaves the list unchanged. `hasError` stays false and `isLoadingMore` is cleared. The in-progress flag stays set. |
| `ArticleListing.LoadMoreRejected` | src/app/shared/components/article-list/article-list.ts:127-133 | A failed continuation keeps every loaded article, sets `hasError` and clears `isLoadingMore`. The in-progress flag stays set. |
| `ArticleListing.ScrollSample` | src/app/shared/components/article-list/article-list.ts:53-84 | A frame fetches exactly when all of these hold: the view is subscribed, the list is non-empty, no request is in progress, the near-bottom value (which also needs `!isLoading && !isLoadingMore`) is true, the last value passed on was not true, and no load is active. It then asks for [len, len + 20). A frame that fetches nothing changes at most the edge detector's memory, so nothing is queued. |
| `ArticleListing.NearBottom` | src/app/shared/components/article-list/article-list.ts:63-71 | The integer-pixel test agrees with `scrollY + innerHeight >= scrollHeight - innerHeight * 0.2` evaluated over the reals. |
| `ArticleListing.NextStep` | src/app/shared/components/article-list/article-list.ts:87-133 | Every event keeps the invariant, and no event ever clears `isRequestInProgress`. A continuation request needs the flag clear beforehand and sets it. It asks for [len, len + 20) and comes only after the initial load settled. The only initial request is [0, 20). |
| `ArticleListing.RunKeepsInv` | src/app/shared/components/article-list/article-list.ts:87-133 | Every state reached by any run of events from a consistent state is consistent. |
| `ArticleListing.AtMostOneContinuation` | src/app/shared/components/article-list/article-list.ts:104-132 | Over any run, at most one continuation fetch is issued, and none once the in-progress flag is set. |
| `ArticleListing.AtMostOneInitial` | src/app/shared/components/article-list/article-list.ts:49-51 | Over any run, the initial window is requested at most once. |
| `ArticleListing.Lifetime` | src/app/shared/components/article-list/article-list.ts:41-133 | From construction, every run keeps the invariant and issues at most one initial and at most one continuation fetch. |
| `ArticleListing.NothingAfterContinuation` | src/app/shared/components/article-list/article-list.ts:61 | After a continuation has been requested, no later event requests anything. |
| `ArticleListing.TwentyThenFive` | src/app/shared/components/article-list/article-list.ts:113-132 | A page of 20 followed by a page of 5 gives 25 articles. The continuation asked for [20, 40), and a later near-bottom frame fetches nothing. |
| `ArticleListing.ArticleList.constructor` | src/app/shared/components/article-list/article-list.ts:41-47 | Fields start as `[]`, loading, not loading more, no error, no request in progress. |
| `ArticleListing.ArticleList.LoadInitialArticles` | src/app/shared/components/article-list/article-list.ts:87-92 | The fields change as `BeginInitialLoad` says, and the request is [0, 20). |
| `ArticleListing.ArticleList.InitialArticlesSettled` | src/app/shared/components/article-list/article-list.ts:93-100 | The fields change as `SettleInitialLoad` says. |
| `ArticleListing.ArticleList.NgAfterViewInit` | src/app/shared/components/article-list/article-list.ts:53-55 | The scroll subscription exists only on the browser platform. |
| `ArticleListing.ArticleList.LoadMoreArticles` | src/app/shared/components/article-list/article-list.ts:103-117 | The fields and the returned window are as `BeginLoadMore` says. |
| `ArticleListing.ArticleList.MoreArticlesSettled` | src/app/shared/components/article-list/article-list.ts:119-133 | The fields change as `SettleLoadMore` says. |
| `ArticleListing.ArticleList.OnScrollFrame` | src/app/shared/components/article-list/article-list.ts:53-84 | The fields and the returned window are as `ScrollSample` says, and the invariant is kept. |
| `FeedPaging.ConstructionResolved` | src/app/components/feed/feed-page/feed-page.ts:22-27 | Construction asks for [0, 20). On success the list becomes the page, and `isLoading` is cleared. |
| `FeedPaging.ConstructionRejected` | src/app/components/feed/feed-page/feed-page.ts:23-26 | A failed first fetch leaves the list empty and still clears `isLoading`. |
| `FeedPaging.OnScroll` | src/app/components/feed/feed-page/feed-page.ts:35-46 | A scroll event fetches exactly when all of these hold: the page listens, the list is non-empty, `scrollY + innerHeight >= scrollHeight - 100`, and nothing is loading. It then sets `isLoading` and asks for [len, len + 20). Otherwise nothing changes. |
| `FeedPaging.ScrollIgnored` | src/app/components/feed/feed-page/feed-page.ts:35-41 | Scroll events are ignored while the list is empty and while any fetch, including the first, is outstanding. |
| `FeedPaging.ContinuationResolved` | src/app/components/feed/feed-page/feed-page.ts:41-48 | A resolved continuation appends its page after the existing articles and clears `isLoading`. |
| `FeedPaging.NextStep` | src/app/components/feed/feed-page/feed-page.ts:41-42 | Every event keeps the invariant. A fetch starts only when none is outstanding, and it sets `isLoading` in the same step. |
| `FeedPaging.RunKeepsInv` | src/app/components/feed/feed-page/feed-page.ts:20-48 | Every state reached from a consistent state is consistent. |
| `FeedPaging.RejectedContinuationSticks` | src/app/components/feed/feed-page/feed-page.ts:42-48 | A rejected continuation leaves `isLoading` set with nothing outstanding. |
| `FeedPaging.StuckForever` | src/app/components/feed/feed-page/feed-page.ts:41-48 | From that stuck state, every later run keeps the articles, stays stuck and fetches nothing. |
| `FeedPaging.FeedPage.constructor` | src/app/components/feed/feed-page/feed-page.ts:22-27 | The page starts empty and loading, with the first fetch outstanding. |
| `FeedPaging.FeedPage.InitialFeedSettled` | src/app/components/feed/feed-page/feed-page.ts:23-26 | The fields change as `SettleInitial` says. |
| `FeedPaging.FeedPage.NgAfterViewInit` | src/app/components/feed/feed-page/feed-page.ts:29-36 | The page listens only when `window` exists. |
| `FeedPaging.FeedPage.OnScrollEvent` | src/app/components/feed/feed-page/feed-page.ts:35-46 | The fields and the returned window are as `OnScroll` says. |
| `FeedPaging.FeedPage.MoreFeedSettled` | src/app/components/feed/feed-page/feed-page.ts:43-48 | The fields change as `SettleMore` says. |
| `Theme.ReadStoredMode` | src/app/core/services/theme-service.ts:71-79 | The stored value is returned when it is exactly 'light', 'dark' or 'system'. Any other value, a missing value, a non-browser platform or a storage exception gives system. |
| `Theme.PersistThenRead` | src/app/core/services/theme-service.ts:56-79 | Reading back the stored name of mode m gives m. |
| `Theme.EffectiveDarkFor` | src/app/core/services/theme-service.ts:32-37 | Dark mode gives true and light mode gives false. In system mode the value equals `osPrefersDark`. |
| `Theme.OsPreferenceMattersOnlyInSystemMode` | src/app/core/services/theme-service.ts:32-46 | A change of OS preference changes the effective theme if and only if the mode is system. |
| `Theme.ThemeService.constructor` | src/app/core/services/theme-service.ts:20-29 | The mode comes from `ReadStoredMode`. The OS preference is false without a media query. |
| `Theme.ThemeService.PersistedItem` | src/app/core/services/theme-service.ts:56-64 | On the browser the persisting effect writes a value that reads back as the current mode. Off the browser it writes nothing. |
| `Theme.ThemeService.SetMode` | src/app/core/services/theme-service.ts:67-69 | Only `mode` changes. |
| `Theme.ThemeService.OsPreferenceChanged` | src/app/core/services/theme-service.ts:41-46 | The listener, registered only when the media query exists, changes only `osPrefersDark`. |
| `ThemeToggling.NextMode` | src/app/shared/components/theme-toggle/theme-toggle.ts:104-119 | The toggle always changes the mode (system → light → dark → system). |
| `ThemeToggling.ThreeTogglesReturn` | src/app/shared/components/theme-toggle/theme-toggle.ts:108-118 | Three toggles return to the starting mode. |
| `ThemeToggling.AriaLabelFor` | src/app/shared/components/theme-toggle/theme-toggle.ts:77-93 | Every label begins with "Switch to <the mode the next toggle moves to> theme". The bare form is used exactly outside system mode. In system mode the label ends in "(currently following system: dark)" when the effective theme is dark and in "(currently following system: light)" otherwise. |
| `ThemeToggling.LabelDependsOnDarkOnlyInSystemMode` | src/app/shared/components/theme-toggle/theme-toggle.ts:81-89 | The label depends on the effective theme if and only if the mode is system. |
| `ThemeToggling.ThemeToggle.constructor` | src/app/shared/components/theme-toggle/theme-toggle.ts:75-102 | The system icon is 'eva-smartphone-outline' on mobile and 'eva-monitor-outline' otherwise. It stays '' off the browser. |
| `ThemeToggling.ThemeToggle.ToggleTheme` | src/app/shared/components/theme-toggle/theme-toggle.ts:104-119 | The service's mode moves to `NextMode` of the old mode, and the OS preference is untouched. |
| `ArticleCards.BackendDefaultIsUnread` | src/app/shared/components/article-card/article-card.ts:17-22 | The 1970 default and the 2000-01-01T00:00:00Z boundary itself count as unread. |
| `ArticleCards.ReadIsMonotone` | src/app/shared/components/article-card/article-card.ts:17-22 | A later `lastReadAt` than a read one is also read. |
| `ArticleCards.SourceUrlShort` | src/app/shared/components/article-card/article-card.ts:23-34 | An empty URL gives ''. A non-empty URL that does not parse makes the computation throw. With no hostname the URL is truncated to at most 30 UTF-16 code units. With a hostname the result is the host without its first 'www.', followed by the path. |
| `ArticleCards.ShortUrlDropsLeadingWww` | src/app/shared/components/article-card/article-card.ts:32-33 | A host starting with 'www.', including 'www.' itself, loses those four code units. |
| `ArticleCards.ShortUrlKeepsPlainHost` | src/app/shared/components/article-card/article-card.ts:32-33 | A host without 'www.' is kept as it is. |
| `ArticleCards.WithSaveToggled` | src/app/shared/components/article-card/article-card.ts:59 | `save` is negated and every other field is unchanged. |
| `ArticleCards.ToggleSavedTwice` | src/app/shared/components/article-card/article-card.ts:52-60 | Toggling twice restores the article. |
| `ArticleCards.WithLastReadFrom` | src/app/shared/components/article-card/article-card.ts:76-79 | Only `lastReadAt` is taken from the fetched copy, and every other field is kept. |
| `ArticleCards.ReadStateFollowsFetched` | src/app/shared/components/article-card/article-card.ts:71-81 | After the copy the card is read exactly when the fetched article is, and its id and saved flag are kept. |
| `ArticleCards.ArticleCard.UpdateArticleSaved` | src/app/shared/components/article-card/article-card.ts:52-60 | It requests (id, !save). The article changes only after the call resolves, and then only in `save`. |
| `ArticleCards.ArticleCard.FetchLastReadAt` | src/app/shared/components/article-card/article-card.ts:71-81 | A fetched article supplies `lastReadAt`. If nothing is returned, or the fetch rejects, the article is unchanged. |
| `ArticleCards.ArticleCard.OnLinkClick` | src/app/shared/components/article-card/article-card.ts:62-69 | It re-fetches only when marking as read resolved. |
| `UrlText.Truncated` | src/app/components/feed/feed-card/feed-card.ts:17 | Lengths count UTF-16 code units. The result is at most 30 units. A URL of 30 or fewer units is kept. A longer one becomes its first 27 units followed by '...'. |
| `UrlText.TruncatedIdempotent` | src/app/components/feed/feed-card/feed-card.ts:17 | Truncating twice is truncating once. |
| `UrlText.TruncationCanSplitSurrogatePair` | src/app/components/feed/feed-card/feed-card.ts:17 | Sixteen characters beyond U+FFFF are 32 code units, so they are truncated, and the 27th unit kept is a high surrogate whose low half is dropped. |
| `UrlText.IndexOf` | src/app/shared/components/article-card/article-card.ts:32 | The result is the first position where the pattern occurs, or -1 when there is none. |
| `UrlText.ReplaceFirst` | src/app/shared/components/article-card/article-card.ts:32 | Only the first occurrence is replaced, and the text before and after it is kept. Without an occurrence the input is returned unchanged. |
| `FeedCards.SourceUrlShort` | src/app/components/feed/feed-card/feed-card.ts:13-18 | An empty URL gives ''. A URL of 30 or fewer UTF-16 code units is kept. A longer one becomes its first 27 units followed by '...'. The result never exceeds 30 units. |
| `ScrollPositions.Lookup` | src/app/core/services/scroll-position-service.ts:23-25 | A key that was never saved gives undefined (`None`). Otherwise the result is the saved position. |
| `ScrollPositions.SaveThenLookup` | src/app/core/services/scroll-position-service.ts:14-25 | A save is read back, and every other key's entry is unchanged. |
| `ScrollPositions.OrIfZero` | src/app/core/services/scroll-position-service.ts:16-17 | `scrollX` is used unless it is 0, and then `pageXOffset` is used. The same holds for y. |
| `ScrollPositions.ScrollPositionService.SaveScrollPosition` | src/app/core/services/scroll-position-service.ts:14-21 | The map gains or overwrites only the saved key's entry. |
| `ScrollPositions.ScrollPositionService.RestoreScrollPosition` | src/app/core/services/scroll-position-service.ts:27-44 | The result is false if and only if no entry exists. It hands the saved position to `scrollTo` and never alters the map. |
| `FeedLastRead.LastReadIn` | src/app/core/services/feed-last-read-service.ts:14-16 | The result is null for an unset id and for a stored 0, because 0 is falsy before `null`. Otherwise it is the stored timestamp. |
| `FeedLastRead.SetThenGet` | src/app/core/services/feed-last-read-service.ts:9-16 | A non-zero timestamp is read back, and 0 reads as null. Other ids are unaffected. |
| `FeedLastRead.FeedLastReadService.constructor` | src/app/core/services/feed-last-read-service.ts:7 | A fresh instance returns null for every id. |
| `FeedLastRead.FeedLastReadService.SetLastRead` | src/app/core/services/feed-last-read-service.ts:9-12 | Only the given id's entry is overwritten. |
| `TagsPaging.FindIndex` | src/app/components/tags-page/tags-page.ts:27 | The result is the first index with the id, or -1 when none matches. |
| `TagsPaging.ReplacedById` | src/app/components/tags-page/tags-page.ts:27-30 | The length is unchanged. The first element with the tag's id becomes the tag, and every other position is unchanged. With no match, no element changes. |
| `TagsPaging.ReplaceIdempotent` | src/app/components/tags-page/tags-page.ts:27-30 | Replacing again with the same tag changes nothing more. |
| `TagsPaging.ReplaceAliasedTag` | src/app/components/tags-page/tags-page.ts:25-30 | When the list already holds this very tag object, the list is unchanged. |
| `TagsPaging.TagsPage.UpdateTagPriority` | src/app/components/tags-page/tags-page.ts:24-25 | `priority` is negated on the tag object at once, so two calls restore it. |
| `TagsPaging.TagsPage.TagUpdateResolved` | src/app/components/tags-page/tags-page.ts:26-31 | Once the update resolves, the list becomes `ReplacedById` of the old list. |
| `TagsPaging.TagsPage.TagsLoaded` | src/app/components/tags-page/tags-page.ts:18-22 | The loaded tags replace the list. |

## Left out

- Feed ranking and scoring: the modelled files contain no feed-ranking code.
- Network clients. `ArticleService`, `RssFeedService`, `TagService` and
  `ConfigService.load` are left out. Their results enter the model as
  `Response` values. `ArticleService.getById`, which `ArticleCard` calls, is an
  opaque input.
- rxjs scheduling. `auditTime(0, animationFrameScheduler)` is modelled only as
  "one step per frame". `untilDestroyed` is left out, and so are Angular
  signals and effects as a mechanism.
- Floating-point geometry. Pixel offsets are integers. `NearBottom` matches the
  source's test over the reals, but not the floating-point rounding of
  `innerHeight * 0.2`.
- DOM side effects. Left out are `classList.toggle('dark', …)`, `matchMedia`
  itself (its result is an input), `requestAnimationFrame` and `scrollTo`
  (`RestoreScrollPosition` returns the target instead).
- Persistence writes. The `localStorage.setItem` calls in the theme service
  and the last-read service are I/O. `PersistedItem` gives the value the theme
  effect writes; the last-read key is not modelled.
- Date parsing and formatting. `getDateFromUtc` in both cards is locale
  formatting. ISO strings that fail to parse (an invalid `Date`, which compares
  false) are not modelled, because instants are integers. WHATWG `URL` parsing
  is not modelled either: hostname and pathname are inputs.
- ArticleListing.ArticleList.LoadInitialArticles: it requires that the
  initial load has not started. A second call, for example from a template,
  is not modelled. The template article-list.html is not part of this model.
- Interleavings inside one asynchronous method. The article card's `await`
  points are not modelled: its update methods take the service's outcome as
  input, and a parent replacing the card's article between the request and the
  response is outside the model.
- `src/app/shared/types/tag.ts` and `src/app/shared/types/theme-mode.ts` are
  not part of this model. A tag is modelled with `id` and a boolean
  `priority`. The theme mode is the three names the code compares against.
- Text fields other than URLs. An article's id, title, description and tags
  are Dafny strings of characters; the model only compares them, so their
  UTF-16 form does not matter.
- Wiring. Left out are routing and server render-mode tables, the wrapper
  pages (history, saved, rss-feeds, feed-articles), the app shell's menu flag,
  and the logic-free components (loader, pulse indicator, checkbox tile).
