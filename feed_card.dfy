/** The feed card (src/app/components/feed/feed-card/feed-card.ts). */
module FeedCards {
  import opened JsStrings
  import opened UrlText

  /**
   * `sourceUrlShort`: '' for an empty URL, the URL itself up to 30 code
   * units, and otherwise its first 27 code units and '...'.
   */
  function SourceUrlShort(url: JsString): (r: JsString)
    ensures url == [] ==> r == []
    ensures |url| <= MaxLength ==> r == url
    ensures |url| > MaxLength ==> r == url[..KeptLength] + Ellipsis
    ensures |r| <= MaxLength
    ensures r <= url || r[..KeptLength] == url[..KeptLength]
  {
    if url == [] then [] else Truncated(url)
  }
}
