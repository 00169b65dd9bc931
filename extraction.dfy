/**
 * The part of extract_website_content that runs after the article has been
 * downloaded and parsed: building the content record and rejecting an
 * article with no text.
 */
module Extraction {
  import opened Wrappers

  /** A wall-clock time rendered as text ("%Y-%m-%d %H:%M:%S"); opaque here. */
  type Timestamp = string

  /** What the article library yields after download and parse. */
  datatype Article = Article(title: string, text: string, publishDate: Option<Timestamp>, topImage: string)

  /** The record the session stores after a successful analysis. */
  datatype WebsiteContent = WebsiteContent(
    text: string,
    title: string,
    publishDate: Option<Timestamp>,
    topImage: string,
    length: nat,
    timestamp: Timestamp)

  /** A stored record has text, and its length is the character count of that text. */
  predicate WellFormed(c: WebsiteContent)
  {
    c.text != [] && c.length == |c.text|
  }

  /** The article a record was built from. */
  function ArticleOf(c: WebsiteContent): Article
  {
    Article(c.title, c.text, c.publishDate, c.topImage)
  }

  /**
   * `fetched` is the outcome of download and parse (None when either raised);
   * `now` is the time the record is built. The result is None on failure.
   */
  function ExtractWebsiteContent(fetched: Option<Article>, now: Timestamp): (r: Option<WebsiteContent>)
    ensures r.Some? <==> fetched.Some? && fetched.value.text != []
    ensures r.Some? ==> WellFormed(r.value) && r.value.length == |fetched.value.text|
    ensures r.Some? ==> ArticleOf(r.value) == fetched.value && r.value.timestamp == now
  {
    match fetched
    case None => None
    case Some(article) =>
      var content := WebsiteContent(article.text, article.title, article.publishDate,
                                    article.topImage, |article.text|, now);
      if content.text == [] then None else Some(content)
  }

  /** Extraction loses nothing: two articles with text that yield the same record are the same article. */
  lemma ExtractionDeterminedByArticle(a: Article, b: Article, now: Timestamp)
    requires ExtractWebsiteContent(Some(a), now) == ExtractWebsiteContent(Some(b), now)
    requires a.text != []
    ensures a == b
  {
    assert ArticleOf(ExtractWebsiteContent(Some(a), now).value) == a;
  }
}
