/** `fetch_article_content` of app.py: download and parse one article. The
    scraping library is the outcome `Scrape` it reaches for a URL; an exception
    raised while downloading or parsing becomes the placeholder text and no
    image. */
module Scraper {
  import opened Wrappers
  import opened PyText

  /** What downloading and parsing an article gave: its text and top image, or
      an exception. */
  datatype Scrape = Scraped(text: string, topImage: string) | ScrapeFailed

  datatype Content = Content(text: string, image: Option<string>)

  const NotAvailable := "Content not available."

  /** A failure gives the placeholder text and no image; a success gives the
      text stripped at both ends, with the same words, and the top image. */
  function FetchArticleContent(s: Scrape): (c: Content)
    ensures s.ScrapeFailed? ==> c == Content(NotAvailable, None)
    ensures s.Scraped? ==>
      c.image == Some(s.topImage) && c.text == Strip(s.text)
      && IsStripped(c.text) && Split(c.text) == Split(s.text)
  {
    match s
    case Scraped(text, topImage) => Content(Strip(text), Some(topImage))
    case ScrapeFailed => Content(NotAvailable, None)
  }
}
