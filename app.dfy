/** The `index` route of app.py: read the search box, fetch the articles, and
    build one summary record per article, in order. The request arrives as a
    value, and the three outside services (news search, scraping, the
    summarization model) are function parameters. */
module App {
  import opened Wrappers
  import opened PyText
  import opened NewsApi
  import opened Scraper
  import opened Summarizer

  const PlaceholderImage := "https://via.placeholder.com/150"
  const NoTitle := "No Title"
  const Unknown := "Unknown"

  /** The request: a GET, or a POST whose form may carry a `search` field. */
  datatype Request = Get | Post(search: Option<string>)

  /** One article card of the page. */
  datatype Record = Record(
    title: Value,
    image: string,
    link: string,
    summary: string,
    source: Value,
    published: Value)

  /** The two exceptions of the loop body that the model covers: `entry['url']`
      on an article without a URL (a `KeyError`), and `.get('name', ...)` on a
      `null` source (an `AttributeError`). */
  datatype Crash = MissingUrl | NullSource

  /** The rendered page, or the server error caused by the article at index
      `at`. */
  datatype Response =
    | Page(records: seq<Record>, searchQuery: string, flashes: seq<Flash>)
    | ServerError(at: nat, crash: Crash)

  /** `q` is the slice of `s` that starts at `k`, lower-cased character by
      character, and every character of `s` outside that slice is whitespace. */
  predicate IsLoweredCoreOf(s: string, k: nat, q: string) {
    && k + |q| <= |s|
    && (forall i :: 0 <= i < |q| ==> q[i] == LowerChar(s[k + i]))
    && (forall i :: 0 <= i < k ==> IsSpace(s[i]))
    && (forall i :: k + |q| <= i < |s| ==> IsSpace(s[i]))
  }

  /** Lower-casing the stripped text gives a lowered core of the original. */
  lemma LowerStripped(s: string)
    ensures exists k: nat :: IsLoweredCoreOf(s, k, Lower(Strip(s)))
  {
    var r := Strip(s);
    var k: nat :| IsCoreOf(s, k, r);
    var q := Lower(r);
    forall i | 0 <= i < |q|
      ensures q[i] == LowerChar(s[k + i])
    {
      CoreAt(s, k, r, i);
    }
    assert IsLoweredCoreOf(s, k, q);
  }

  /** The search query: for a POST, the `search` field (empty when absent) with
      the whitespace around it removed and its letters lower-cased; empty for a
      GET. */
  function SearchQuery(req: Request): (q: string)
    ensures IsStripped(q)
    ensures forall i :: 0 <= i < |q| ==> !('A' <= q[i] <= 'Z')
    ensures req.Get? ==> q == ""
    ensures req.Post? ==> exists k: nat :: IsLoweredCoreOf(req.search.GetOr(""), k, q)
  {
    match req
    case Get => ""
    case Post(search) =>
      LowerStripped(search.GetOr(""));
      Lower(Strip(search.GetOr("")))
  }

  /** Submitting the query shown on the page again searches the same thing. */
  lemma SearchQueryIdempotent(req: Request)
    ensures SearchQuery(Post(Some(SearchQuery(req)))) == SearchQuery(req)
  {
    var q := SearchQuery(req);
    StripStripped(q);
    LowerUncapitalized(q);
  }

  /** `dict.get(key, default)` on a JSON object. */
  function FieldOr(field: Option<Value>, default: string): Value {
    field.GetOr(Str(default))
  }

  /** The name read from the article's source object: `Unknown` when the
      source or its name is absent, and an `AttributeError` when the source is
      `null`. */
  function SourceName(source: Option<Source>): (r: Result<Value, Crash>)
    ensures source == Some(SourceNull) <==> r == Failure(NullSource)
    ensures source.None? ==> r == Success(Str(Unknown))
    ensures source.Some? && source.value.SourceObject? ==> r == Success(FieldOr(source.value.name, Unknown))
  {
    match source
    case None => Success(Str(Unknown))
    case Some(SourceNull) => Failure(NullSource)
    case Some(SourceObject(name)) => Success(FieldOr(name, Unknown))
  }

  /** The image of a card: the scraped top image, or the placeholder when there
      is none or it is empty. */
  function CardImage(image: Option<string>): (r: string)
    ensures r != ""
    ensures image.Some? && image.value != "" ==> r == image.value
    ensures image.None? || image.value == "" ==> r == PlaceholderImage
  {
    if image.Some? && image.value != "" then image.value else PlaceholderImage
  }

  /** The record the loop body builds for one article, or the exception it
      raises. Whether it raises depends on the article alone, never on the
      scrape or the summary; a failed scrape still gives a record. */
  function RecordFor(e: Entry, scrape: string -> Scrape, summarize: string -> string): (r: Result<Record, Crash>)
    ensures r.Success? <==> e.url.Some? && e.source != Some(SourceNull)
    ensures e.url.None? ==> r == Failure(MissingUrl)
    ensures e.url.Some? && e.source == Some(SourceNull) ==> r == Failure(NullSource)
    ensures r.Success? ==>
      && r.value.link == e.url.value
      && r.value.summary == summarize(FetchArticleContent(scrape(e.url.value)).text)
      && r.value.image == CardImage(FetchArticleContent(scrape(e.url.value)).image)
      && r.value.image != ""
      && (e.title.None? ==> r.value.title == Str(NoTitle))
      && (e.title.Some? ==> r.value.title == e.title.value)
      && (e.publishedAt.None? ==> r.value.published == Str(Unknown))
      && (e.publishedAt.Some? ==> r.value.published == e.publishedAt.value)
      && SourceName(e.source) == Success(r.value.source)
      && (scrape(e.url.value).ScrapeFailed? ==>
            r.value.image == PlaceholderImage && r.value.summary == summarize(NotAvailable))
      && (scrape(e.url.value).Scraped? && scrape(e.url.value).topImage != "" ==>
            r.value.image == scrape(e.url.value).topImage)
  {
    match e.url
    case None => Failure(MissingUrl)
    case Some(url) =>
      var content := FetchArticleContent(scrape(url));
      var summary := summarize(content.text);
      var source := SourceName(e.source);
      if source.Failure? then Failure(source.error)
      else Success(Record(FieldOr(e.title, NoTitle), CardImage(content.image), url, summary,
                          source.value, FieldOr(e.publishedAt, Unknown)))
  }

  /** The loop of the route: one record per article, in order, appended to the
      page; the first article whose record raises turns the whole response
      into a server error. */
  method BuildPage(articles: seq<Entry>, scrape: string -> Scrape, summarize: string -> string,
                   searchQuery: string, flashes: seq<Flash>)
    returns (resp: Response)
    ensures resp.Page? <==> forall i :: 0 <= i < |articles| ==> RecordFor(articles[i], scrape, summarize).Success?
    ensures resp.Page? ==>
      && resp.searchQuery == searchQuery
      && resp.flashes == flashes
      && |resp.records| == |articles|
      && forall i :: 0 <= i < |resp.records| ==>
           RecordFor(articles[i], scrape, summarize) == Success(resp.records[i])
    ensures resp.ServerError? ==>
      && resp.at < |articles|
      && RecordFor(articles[resp.at], scrape, summarize) == Failure(resp.crash)
      && forall j :: 0 <= j < resp.at ==> RecordFor(articles[j], scrape, summarize).Success?
  {
    var summaries: seq<Record> := [];
    var i := 0;
    while i < |articles|
      invariant 0 <= i <= |articles|
      invariant |summaries| == i
      invariant forall j :: 0 <= j < i ==> RecordFor(articles[j], scrape, summarize) == Success(summaries[j])
    {
      var built := RecordFor(articles[i], scrape, summarize);
      if built.Failure? {
        assert RecordFor(articles[i], scrape, summarize) == Failure(built.error);
        return ServerError(i, built.error);
      }
      RecordsExtend(articles, summaries, built.value, scrape, summarize);
      summaries := summaries + [built.value];
      i := i + 1;
    }
    resp := Page(summaries, searchQuery, flashes);
  }

  /** The route: it fetches the articles for the search query and builds the
      page from them, with the flash the fetch raised. */
  method Index(req: Request, apiKey: Option<string>, get: string -> Reply,
               scrape: string -> Scrape, summarize: string -> string)
    returns (resp: Response)
    ensures var fetched := FetchArticles(apiKey, SearchQuery(req), get).articles;
      resp.Page? <==> forall i :: 0 <= i < |fetched| ==> RecordFor(fetched[i], scrape, summarize).Success?
    ensures var fetched := FetchArticles(apiKey, SearchQuery(req), get);
      resp.Page? ==>
        && resp.searchQuery == SearchQuery(req)
        && resp.flashes == (if fetched.flash.Some? then [fetched.flash.value] else [])
        && |resp.records| == |fetched.articles|
        && forall i :: 0 <= i < |resp.records| ==>
             RecordFor(fetched.articles[i], scrape, summarize) == Success(resp.records[i])
    ensures var fetched := FetchArticles(apiKey, SearchQuery(req), get).articles;
      resp.ServerError? ==>
        && resp.at < |fetched|
        && RecordFor(fetched[resp.at], scrape, summarize) == Failure(resp.crash)
        && forall j :: 0 <= j < resp.at ==> RecordFor(fetched[j], scrape, summarize).Success?
  {
    var searchQuery := SearchQuery(req);
    var fetched := FetchArticles(apiKey, searchQuery, get);
    var flashes := if fetched.flash.Some? then [fetched.flash.value] else [];
    resp := BuildPage(fetched.articles, scrape, summarize, searchQuery, flashes);
  }

  /** One more record built keeps the records in step with the articles. */
  lemma RecordsExtend(articles: seq<Entry>, records: seq<Record>, rec: Record,
                      scrape: string -> Scrape, summarize: string -> string)
    requires |records| < |articles|
    requires forall j :: 0 <= j < |records| ==> RecordFor(articles[j], scrape, summarize) == Success(records[j])
    requires RecordFor(articles[|records|], scrape, summarize) == Success(rec)
    ensures forall j :: 0 <= j <= |records| ==>
      RecordFor(articles[j], scrape, summarize) == Success((records + [rec])[j])
  {
  }

  /** The route as app.py wires it, with `summarize_text` (the model of
      `Summarizer`) as the summarizer: every card's summary is the model's
      summary of the text scraped from the card's own link. */
  method Home(req: Request, apiKey: Option<string>, get: string -> Reply,
              scrape: string -> Scrape, generate: Generation -> Option<string>)
    returns (resp: Response)
    ensures resp.Page? ==> forall i :: 0 <= i < |resp.records| ==>
      resp.records[i].summary == Summarize(FetchArticleContent(scrape(resp.records[i].link)).text, generate)
    ensures resp.Page? ==> |resp.records| <= MaxArticles
  {
    var summarize := (text: string) => Summarize(text, generate);
    resp := Index(req, apiKey, get, scrape, summarize);
    if resp.Page? {
      var fetched := FetchArticles(apiKey, SearchQuery(req), get).articles;
      forall i | 0 <= i < |resp.records|
        ensures resp.records[i].summary == Summarize(FetchArticleContent(scrape(resp.records[i].link)).text, generate)
      {
        assert RecordFor(fetched[i], scrape, summarize) == Success(resp.records[i]);
      }
    }
  }
}
