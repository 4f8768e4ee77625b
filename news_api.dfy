/** `fetch_articles` of app.py: choose the search topic, query the news search
    service, and keep the first articles of a successful answer. The HTTP call
    itself is the parameter `get`, from the request URL to what came back; a
    user-visible flash message is returned instead of being pushed into the
    session. */
module NewsApi {
  import opened Wrappers
  import opened PyText

  /** A JSON scalar as the application reads it: `null` or a string. */
  datatype Value = Null | Str(s: string)

  /** The `source` member of an article: an object whose `name` key may be
      absent, or `null`. */
  datatype Source = SourceObject(name: Option<Value>) | SourceNull

  /** One article of the service's answer. `None` stands for a key that is
      absent from the JSON object. */
  datatype Entry = Entry(
    url: Option<string>,
    title: Option<Value>,
    source: Option<Source>,
    publishedAt: Option<Value>)

  /** The decoded JSON body of an answer. */
  datatype Payload = Payload(
    status: Option<Value>,
    message: Option<Value>,
    articles: Option<seq<Entry>>)

  /** What the HTTP layer gives back: a decoded body, or the text of the
      `RequestException` raised by the request, by `raise_for_status` or by
      decoding the body. */
  datatype Reply = Parsed(payload: Payload) | RequestError(reason: string)

  datatype Category = Danger | Warning

  datatype Flash = Flash(category: Category, text: string)

  /** The articles handed to the page and the flash message raised, if any. */
  datatype Fetched = Fetched(articles: seq<Entry>, flash: Option<Flash>)

  const MaxArticles := 6
  const FallbackTopic := "india"
  const Endpoint := "https://newsapi.org/v2/everything?q="

  const MissingKey := Flash(Danger, "News API key is missing.")
  const NoArticles := Flash(Warning, "No articles found for this query.")

  /** The API key counts as configured when it is set and not empty. */
  predicate HasKey(apiKey: Option<string>) {
    apiKey.Some? && apiKey.value != ""
  }

  /** The topic searched for: the query itself, or the fallback topic when the
      query is empty. */
  function SearchTopic(query: string): (topic: string)
    ensures topic != ""
    ensures query != "" ==> topic == query
    ensures query == "" ==> topic == FallbackTopic
  {
    if query != "" then query else FallbackTopic
  }

  /** The URL requested, with the topic and the key pasted in as they are. */
  function RequestUrl(query: string, key: string): (url: string)
    ensures Endpoint + SearchTopic(query) + "&" <= url
    ensures |url| >= |key| && url[|url| - |key|..] == key
  {
    Endpoint + SearchTopic(query) + "&language=en&apiKey=" + key
  }

  /** The service's error message as it appears in the flash text: `Unknown
      error` when the body has none, `None` (Python's rendering) when it is
      `null`, and the message itself otherwise. */
  function MessageText(message: Option<Value>): string {
    match message
    case None => "Unknown error"
    case Some(Null) => "None"
    case Some(Str(m)) => m
  }

  predicate StatusOk(p: Payload) {
    p.status == Some(Str("ok"))
  }

  /** The answer to the request made for `query` with a configured key. */
  function ReplyFor(apiKey: Option<string>, query: string, get: string -> Reply): Reply
    requires HasKey(apiKey)
  {
    get(RequestUrl(query, apiKey.value))
  }

  /** The key is configured and the service answered with status "ok". */
  predicate Succeeded(apiKey: Option<string>, query: string, get: string -> Reply) {
    HasKey(apiKey) && ReplyFor(apiKey, query, get).Parsed? && StatusOk(ReplyFor(apiKey, query, get).payload)
  }

  /** All the articles a successful answer lists . */
  function Listed(apiKey: Option<string>, query: string, get: string -> Reply): seq<Entry>
    requires Succeeded(apiKey, query, get)
  {
    ReplyFor(apiKey, query, get).payload.articles.GetOr([])
  }

  /** The articles shown for `query`, and the flash message raised on the way.
      Every failure (no key, a failed request, a status other than "ok") gives
      no articles and a danger message; a success keeps at most the first six
      listed articles and warns only when there are none. */
  function FetchArticles(apiKey: Option<string>, query: string, get: string -> Reply): (r: Fetched)
    ensures |r.articles| <= MaxArticles
    ensures r.flash.None? <==> r.articles != []
    ensures !HasKey(apiKey) ==> r == Fetched([], Some(MissingKey))
    ensures !Succeeded(apiKey, query, get) ==>
      r.articles == [] && r.flash.Some? && r.flash.value.category == Danger
    ensures Succeeded(apiKey, query, get) ==>
      var listed := Listed(apiKey, query, get);
      r.articles <= listed && |r.articles| == Min(MaxArticles, |listed|)
      && (r.flash.Some? ==> r.flash == Some(NoArticles))
  {
    if !HasKey(apiKey) then Fetched([], Some(MissingKey))
    else
      match get(RequestUrl(query, apiKey.value))
      case RequestError(reason) =>
        Fetched([], Some(Flash(Danger, "Error fetching articles: " + reason)))
      case Parsed(payload) =>
        if !StatusOk(payload) then
          Fetched([], Some(Flash(Danger, "API error: " + MessageText(payload.message))))
        else
          var listed := payload.articles.GetOr([]);
          var kept := listed[..Min(MaxArticles, |listed|)];
          Fetched(kept, if kept == [] then Some(NoArticles) else None)
  }

  /** An empty query searches the fallback topic, exactly as if that topic had
      been typed. */
  lemma EmptyQuerySearchesFallback(apiKey: Option<string>, get: string -> Reply)
    ensures FetchArticles(apiKey, "", get) == FetchArticles(apiKey, FallbackTopic, get)
  {
  }
}
