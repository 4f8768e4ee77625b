# NewsGPT request pipeline, modelled in Dafny

NewsGPT is a small Flask application (`app.py`). On each request to `/` it
reads the search box, asks a news search service for matching articles, keeps
the first six, scrapes the text and top image of each article, summarises the
text with a local DistilBART model, and renders one card per article.

This project models the logic `app.py` adds around those library calls:

- `PyText`: the parts of Python's `str` the code relies on. These are
  `split()` (on Python's whitespace characters), `" ".join`, `strip()`,
  `lower()` on ASCII letters, and `min`/`max`.
- `NewsApi`: `fetch_articles`. It covers the missing-key check, the fallback
  topic `india`, the request URL, the status check and the cap of six
  articles. Flash messages are returned as values. The HTTP call is a
  parameter `get` from URL to `Reply`, which is either the decoded JSON body or
  the text of a `RequestException`.
- `Scraper`: `fetch_article_content`. The scraping library's outcome for a URL
  is a `Scrape` value. A failure gives the placeholder `"Content not
  available."` and no image.
- `Summarizer`: `summarize_text`. It computes the input window (the first 512
  words), `max_length` and `min_length`. The tokenizer and `model.generate` are
  a parameter `generate`, and `None` stands for any exception they raise, which
  gives `"Summary unavailable."`.
- `App`: the `index` route. This covers the search query, the loop that
  builds one record per article, the field defaults, and two of the
  exceptions the loop body can raise: a missing `url` and a `null` source. `Index` takes the summarizer as a text-to-text
  parameter. `Home` plugs in `Summarizer.Summarize`, which is how `app.py`
  wires it.

JSON objects are modelled faithfully to `dict.get(key, default)`. A field is
`Option<Value>`, where `None` means the key is absent. The default applies only
to an absent key: a key present with `null` keeps `null`. The only "missing or
empty" fallback in the code is the card image (`image or placeholder`).

Three facts about `app.py` that the model keeps:

- A status other than `"ok"` gives a `danger` flash.
- At most 6 articles are kept.
- The card image is the scraper's top image. It is not a field of the search
  service's answer.

## Model

| member | source | states |
|---|---|---|
| PyText.LeadingWord | app.py:64 | the first word `split()` finds is the longest whitespace-free prefix: a prefix, free of whitespace, followed by whitespace or the end |
| PyText.Split | app.py:64 | `text.split()` yields only non-empty whitespace-free words whose concatenation is exactly the non-whitespace characters of the text, in order |
| PyText.SplitWord | app.py:64 | a single word splits into exactly that word |
| PyText.SplitAtSpace | app.py:64 | a whitespace character separates: the words of `a + [c] + b` are the words of `a` followed by those of `b`, so with `SplitWord` the pieces are the maximal whitespace-free runs |
| PyText.SplitJoin | app.py:64 | `" ".join` then `split()` gives the same list of words back (the round trip behind the truncated input) |
| PyText.SplitTrailingSpace | app.py:57 | a trailing whitespace character does not change the words of a text |
| PyText.TrimStart | app.py:57 | `lstrip`: a suffix of the text, everything removed is whitespace, and it does not start with whitespace |
| PyText.TrimEnd | app.py:57 | `rstrip`: a prefix of the text, everything removed is whitespace, and it does not end with whitespace |
| PyText.SplitTrimStart | app.py:57 | removing leading whitespace does not change the words |
| PyText.SplitTrimEnd | app.py:57 | removing trailing whitespace does not change the words |
| PyText.Strip | app.py:57 | `strip()` gives a slice of the text with only whitespace before and after it and none at its own ends, and keeps the words of the text unchanged |
| PyText.TrimBothCore | app.py:57 | `lstrip` then `rstrip` leaves a contiguous slice of the text with only whitespace on either side |
| PyText.StripStripped | app.py:86 | `strip()` of a string with no whitespace at its ends is the string itself |
| PyText.LowerChar | app.py:86 | lower-casing a character neither creates nor removes whitespace |
| PyText.Lower | app.py:86 | `lower()` keeps the length, maps each character, leaves no ASCII capital, and keeps a stripped string stripped |
| PyText.LowerUncapitalized | app.py:86 | `lower()` of a string without ASCII capitals is the string itself |
| NewsApi.SearchTopic | app.py:29-30 | an empty query is replaced by `india`; a non-empty query is used as given; the topic is never empty |
| NewsApi.RequestUrl | app.py:29-30 | the request URL starts with the search endpoint followed by the topic and ends with the API key |
| NewsApi.FetchArticles | app.py:23-49 | at most 6 articles; a flash exactly when the list is empty; missing key gives the missing-key danger flash; any failure (no key, request error, status not `ok`) gives no articles and a danger flash; on success the articles are a prefix of the listed ones of length min(6, listed), and the only possible flash is the no-articles warning |
| NewsApi.EmptyQuerySearchesFallback | app.py:29-30 | fetching with an empty query is the same as fetching with the query `india` |
| Scraper.FetchArticleContent | app.py:51-59 | a failed scrape gives `"Content not available."` and no image; a successful one gives the top image and `strip()` of the scraped text, which has the same words |
| Summarizer.TargetLength | app.py:66-67 | `max_length` is 20 for at most 10 words; above 10 words it lies in [30, 140] and equals half the word count, 30 below that range, 140 above it |
| Summarizer.MinLength | app.py:72 | `min_length` is at least 10 and at least half of `max_length`, and it is one of those two |
| Summarizer.TargetLengthMonotone | app.py:66-67 | more words never give a smaller `max_length` |
| Summarizer.GenerationFor | app.py:64-72 | the model's input has the words of the text up to the 512th, so at most 512 words, as a prefix; `max_length` comes from the word count of the whole, untruncated text; 10 <= `min_length` <= `max_length` <= 140 |
| Summarizer.Summarize | app.py:61-81 | the summary is what the model produced for that call, or `"Summary unavailable."` when the model failed |
| App.SearchQuery | app.py:86 | the query is empty for a GET; for a POST it is a slice of the submitted `search` text (empty when absent), lower-cased character by character, with only whitespace outside the slice; it has no whitespace at either end and no ASCII capital letter |
| App.LowerStripped | app.py:86 | lower-casing the stripped text gives a lower-cased slice of the original with only whitespace around it |
| App.SearchQueryIdempotent | app.py:86 | submitting the displayed query again gives the same query |
| App.SourceName | app.py:100 | the source name is `Unknown` when the source or its name is absent, the name when present, and an `AttributeError` exactly when the source is `null` |
| App.CardImage | app.py:97 | the card image is never empty: the scraped image if it is non-empty, the placeholder URL otherwise |
| App.RecordFor | app.py:91-102 | one article's record exists exactly when the article has a URL and a non-null source, so a scrape or summary failure never stops it; link is the URL; the image is the scraped top image or the placeholder (`CardImage`); the summary is the summarizer's output on the scraped text; title and publication date default to `No Title` and `Unknown` only when absent; a failed scrape gives the placeholder image and the summary of `"Content not available."` |
| App.BuildPage | app.py:89-104 | the loop over the fetched articles: the page has exactly one record per article, in the same order, or it is the server error of the first article whose record raises, all earlier records having been built |
| App.Index | app.py:83-104 | the page has exactly one record per fetched article, in the same order, together with the query and the fetch flash; a server error happens exactly when some article's record raises, and it names the first such article |
| App.Home | app.py:88-99 | with `summarize_text` plugged in, each card's summary is the model's summary of the text scraped from that card's own link, and there are at most 6 cards |

## Left out

- Flask routing, `render_template` and `flash` are not modelled. The page is returned as a `Response` value and flash messages as values. A server error drops the flash raised before it.
- `requests.get`, `raise_for_status` and `response.json()` are replaced by the parameter `get`. Every `RequestException` they raise becomes `RequestError` with its text. The text of `str(e)` is not modelled.
- The `newspaper` download and parse are replaced by the `Scrape` outcome for each URL.
- The DistilBART tokenizer and `model.generate` are replaced by the parameter `generate`. This includes the tokenizer's own 1024-token truncation and the beam-search settings, which are floating-point neural inference in a foreign library. Only the integer length arguments are modelled.
- PyText.Lower: maps only ASCII letters. Python's full Unicode case mapping of `.lower()` is not modelled.
- JSON values other than strings and `null` are not modelled: numbers and booleans in `title`, `publishedAt` or `message`. Neither are an `articles` member that is `null` or not a list, a `url` that is present but `null`, or a `source` that is neither an object nor `null`. In `app.py` these either raise outside the handled cases or depend on Python's formatting of non-string values.
- The default `''` of `entry.get('url', '')` at app.py:98 can never apply. `entry['url']` at app.py:92 has already raised `KeyError` for an article without a URL, and the model returns that as `ServerError(_, MissingUrl)`.
- An exception raised by the `Article(url)` constructor at app.py:53 is not modelled. That line is outside the `try`, so such an exception would escape the route as a server error; the model assumes the constructor does not raise.
- A JSON body that is not an object is not modelled. `data.get` at app.py:39 would raise `AttributeError` for it; the model's `Payload` is always an object.
- An entry of `articles` that is not an object is not modelled. `entry['url']` at app.py:92 would raise `TypeError` for it; the model's `Entry` is always an object.
- Environment loading, model loading at startup, `print` logging and `app.run` are process plumbing and are not modelled.
