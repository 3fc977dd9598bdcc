/** The article record shared by every list and card (src/app/shared/types/article.ts). */
module Articles {
  import opened JsStrings

  /** An instant, as milliseconds since 1970-01-01T00:00:00Z (what `new Date(s)` yields). */
  type Instant = int

  /** `sourceType: 'rss' | 'scraped'`. */
  datatype SourceType = Rss | Scraped

  datatype Article = Article(
    id: string,
    title: string,
    description: string,
    sourceUrl: JsString,
    sourceType: SourceType,
    priority: int,
    tags: seq<string>,
    publishedAt: Instant,
    lastReadAt: Instant,
    save: bool)
}
