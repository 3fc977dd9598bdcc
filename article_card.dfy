/** The article card (src/app/shared/components/article-card/article-card.ts). */
module ArticleCards {
  import opened Wrappers
  import opened Articles
  import opened Fetch
  import opened UrlText
  import opened JsStrings

  /** 2000-01-01T00:00:00Z in milliseconds since the epoch. */
  const StartOf2000: Instant := 946_684_800_000

  /**
   * `hasLastReadAt`: the article counts as read when its `lastReadAt` is
   * strictly after the start of 2000, so the backend's 1970 default does not.
   */
  predicate HasLastReadAt(a: Article)
  {
    a.lastReadAt > StartOf2000
  }

  /** The backend's default, 1970-01-01, and the boundary instant itself count as unread. */
  lemma BackendDefaultIsUnread(a: Article)
    requires a.lastReadAt == 0 || a.lastReadAt == StartOf2000
    ensures !HasLastReadAt(a)
  {
  }

  /** A later read instant never turns a read article back into an unread one. */
  lemma ReadIsMonotone(a: Article, b: Article)
    requires HasLastReadAt(a) && a.lastReadAt <= b.lastReadAt
    ensures HasLastReadAt(b)
  {
  }

  /** The parts of `new URL(sourceUrl)` the card uses. */
  datatype ParsedUrl = ParsedUrl(hostname: JsString, pathname: JsString)

  /** `'www.'`. */
  const Www: JsString := [0x77, 0x77, 0x77, 0x2E]

  /**
   * `sourceUrlShort`, given what `new URL(sourceUrl)` produced (`None` when
   * it threw).  The result is `None` when the computed signal throws, which
   * happens exactly when a non-empty URL does not parse.
   */
  function SourceUrlShort(url: JsString, parsed: Option<ParsedUrl>): (r: Option<JsString>)
    ensures r.None? <==> url != [] && parsed.None?
    ensures url == [] ==> r == Some([])
    ensures url != [] && parsed.Some? && parsed.value.hostname == [] ==>
      r == Some(Truncated(url)) && |r.value| <= MaxLength
    ensures url != [] && parsed.Some? && parsed.value.hostname != [] ==>
      r == Some(ReplaceFirst(parsed.value.hostname, Www, []) + parsed.value.pathname)
  {
    if url == [] then Some([])
    else match parsed
      case None => None
      case Some(u) =>
        if u.hostname == [] then Some(Truncated(url))
        else Some(ReplaceFirst(u.hostname, Www, []) + u.pathname)
  }

  /** A leading `www.` is dropped from the host, and the path follows it. */
  lemma ShortUrlDropsLeadingWww(url: JsString, hostname: JsString, pathname: JsString)
    requires url != [] && |hostname| >= 4 && hostname[..4] == Www
    ensures SourceUrlShort(url, Some(ParsedUrl(hostname, pathname))) == Some(hostname[4..] + pathname)
  {
    assert OccursAt(hostname, Www, 0);
  }

  /** A host without `www.` is kept as it is. */
  lemma ShortUrlKeepsPlainHost(url: JsString, hostname: JsString, pathname: JsString)
    requires url != [] && hostname != []
    requires forall j :: 0 <= j ==> !OccursAt(hostname, Www, j)
    ensures SourceUrlShort(url, Some(ParsedUrl(hostname, pathname))) == Some(hostname + pathname)
  {
  }

  /** The article after `updateArticleSaved`: `save` negated, every other field kept. */
  function WithSaveToggled(a: Article): (r: Article)
    ensures r.save == !a.save
    ensures r.(save := a.save) == a
  {
    a.(save := !a.save)
  }

  lemma ToggleSavedTwice(a: Article)
    ensures WithSaveToggled(WithSaveToggled(a)) == a
  {
  }

  /** The article after `fetchLastReadAt`: only `lastReadAt` comes from the fetched copy. */
  function WithLastReadFrom(a: Article, fetched: Article): (r: Article)
    ensures r.lastReadAt == fetched.lastReadAt
    ensures r.(lastReadAt := a.lastReadAt) == a
  {
    a.(lastReadAt := fetched.lastReadAt)
  }

  /** After the copy, the card shows as read exactly when the fetched copy is read. */
  lemma ReadStateFollowsFetched(a: Article, fetched: Article)
    ensures HasLastReadAt(WithLastReadFrom(a, fetched)) == HasLastReadAt(fetched)
    ensures WithLastReadFrom(a, fetched).save == a.save && WithLastReadFrom(a, fetched).id == a.id
  {
  }

  class ArticleCard {
    /** The `article` model signal. */
    var article: Article

    constructor (article: Article)
      ensures this.article == article
    {
      this.article := article;
    }

    /**
     * `updateArticleSaved`: asks the service to store the negated flag and,
     * once that call resolves, negates `save` locally.  A rejected call leaves
     * the article as it was.
     */
    method UpdateArticleSaved(call: Response<()>) returns (id: string, save: bool)
      modifies this
      ensures id == old(article).id && save == !old(article).save
      ensures article == if call.Resolved? then WithSaveToggled(old(article)) else old(article)
    {
      id, save := article.id, !article.save;
      if call.Resolved? {
        article := article.(save := !article.save);
      }
    }

    /**
     * `fetchLastReadAt` with the outcome of `getById`: a fetched article
     * supplies `lastReadAt`; nothing fetched, or a rejection, changes nothing.
     */
    method FetchLastReadAt(fetched: Response<Option<Article>>) returns (id: string)
      modifies this
      ensures id == old(article).id
      ensures article ==
        if fetched.Resolved? && fetched.value.Some? then WithLastReadFrom(old(article), fetched.value.value)
        else old(article)
    {
      id := article.id;
      if fetched.Resolved? && fetched.value.Some? {
        article := article.(lastReadAt := fetched.value.value.lastReadAt);
      }
    }

    /** `onLinkClick`: `markAsRead`, then `fetchLastReadAt` only if marking resolved. */
    method OnLinkClick(marked: Response<()>, fetched: Response<Option<Article>>) returns (refetched: bool)
      modifies this
      ensures refetched == marked.Resolved?
      ensures article ==
        if marked.Resolved? && fetched.Resolved? && fetched.value.Some? then WithLastReadFrom(old(article), fetched.value.value)
        else old(article)
    {
      refetched := marked.Resolved?;
      if refetched {
        var _ := FetchLastReadAt(fetched);
      }
    }
  }
}
