# finollama: cache-aside fact checking, modelled in Dafny

finollama fetches a web page, extracts its article text, asks a language
model for a fact-accuracy breakdown and caches the answer per URL. The cache
has three tiers. A record younger than five minutes is served as stored. A
stale record whose stored SHA-256 fingerprint equals the fingerprint of the
newly extracted text is served without calling the model. Anything else calls
the model once, parses the fenced JSON block in its reply and upserts the
URL's record.

The model covers the two places where this happens, the Flask handler
`explore` (app.py) and the FastAPI handler `explore_post` (main.py). It also
covers the helpers both use (utils.py, of which app.py holds identical
copies at app.py:38-59).

- `wrappers.dfy` (`Wrappers`): `Option` and `Result`.
- `text.dfy` (`Text`): Python's `str.strip()` with its whitespace set, and
  literal substring search.
- `utils.dfy` (`Utils`): `validate_url` over an abstract URL schema and
  `extract_json_from_content`. The pattern `` ```json(.*?)``` `` under
  `re.DOTALL` is given a declarative meaning (leftmost match, shortest
  group), and the scanner is proved to compute it. Also `generate_content_hash`,
  an abstract SHA-256 followed by a real `hexdigest()`.
- `store.dfy` (`Store`): the content record, the five-minute freshness test
  (strict `<`, in microseconds) and the collection as a class holding a
  `map` from URL to record. `find_one` and `update_one(..., upsert=True)`
  are its methods, and ghost counters record lookups and writes.
- `view.dfy` (`View`): the template context (`url`, `content`, `facts`,
  `error`), the error messages and the per-request collaborators.
- `app.dfy` (`FlaskApp`) and `main.dfy` (`FastApiApp`): each handler is a
  method on a class that holds the collection. Ghost counters record HTTP
  fetches and model calls, so "no fetch", "no model call" and "no write" can
  be stated per tier.

The outside world is one value per request, `View.Collaborators`. It holds
these as functions:
- the URL schema's acceptance test
- the HTTP GET
- the article extractor
- SHA-256
- the language model
- `json.loads`

Time is two integer parameters: `now`, read for the freshness check, and
`writeTime`, stamped on a new record. The source reads the clock twice, at
app.py:113 and app.py:136.

Where the code does less or other than one might expect, the model follows
the code:
- Fetch errors in app.py. `requests`' `raise_for_status` raises only for
  statuses 400-599, so a final 1xx or 3xx response is not a fetch error
  there.
- Fetch errors in main.py. httpx's `raise_for_status` raises
  `HTTPStatusError` for every non-2xx status. That exception is not an
  `httpx.RequestError`, so main.py reports a bad status as "Unexpected
  error". Only transport failures are "Error fetching content".
- Validation in main.py. An invalid URL gets "URL is required", the same
  message as an empty one. The page's `url` is then `None`.
- Parse failures. Both handlers call `extract_json_from_content` inside their
  `try`, so a reply without a valid block is caught and reported as
  "Unexpected error". It never escapes the handler. The page then shows the
  raw reply as `facts`, because `facts` is reassigned before the parse
  raises.
- Extractor failures. An exception from the article extractor is reported
  as "Unexpected error".
- Model-call failures are not swallowed alike. In utils.py (used by
  main.py) any exception becomes the reply text "Unexpected error occurred
  <exception> ", which holds no fenced block and so ends in "No JSON found
  in the content.". In app.py the first `except` clause names
  `genai.GenerativeAIException`, which the library does not define. That
  clause raises as soon as any exception is matched against it, so its
  catch-all is never reached and `explore` reports "Unexpected error"
  (`View.Cause.ModelCall`). The `facts` are still "", the model was called
  once, and nothing is written.

## Model

| member | source | states |
|---|---|---|
| `Text.Strip` | utils.py:30 | the result is the slice of `s` that begins after its leading whitespace and is followed only by whitespace, and neither end of it is Python whitespace |
| `Text.StripPadded` | utils.py:30 | stripping `lead + t + trail` with whitespace-only padding gives back `t` exactly when `t` has no whitespace at its ends |
| `Text.FindFrom` | utils.py:28 | returns the first occurrence of the pattern at or after `from`, and `None` only when there is none |
| `Utils.ValidateUrl` | utils.py:18-23 | returns the URL unchanged exactly when the schema accepts it, `None` otherwise |
| `Utils.LocateBlock` | utils.py:28-29 | finds the leftmost "```json" that has a later "```", and the earliest such "```" (the non-greedy DOTALL search); `None` exactly when the pattern matches nowhere |
| `Utils.ExtractJsonMeaning` | utils.py:26-36 | `ExtractJson` (also the identical copy at app.py:45-55) gives "No JSON found in the content." exactly when the pattern matches nowhere; otherwise the decoder's value, or "Error decoding JSON", for the stripped text between the marker and the earliest following fence |
| `Utils.FencedReplyDecodes` | utils.py:28-32 | a reply `before + "```json" + body + "```" + after` without backticks in `before` and `body` decodes to exactly what the decoder makes of `strip(body)` |
| `Utils.NoBacktickFindsNoJson` | utils.py:28-34 | a text without a backtick has no fenced block and gives "No JSON found in the content." |
| `Utils.HexDigest` | utils.py:40 | the hex digest has two lower-case hex digits per digest byte |
| `Utils.UnhexHexDigest` | utils.py:40 | reading a hex digest back yields the digest bytes (round trip) |
| `Utils.HexDigestInjective` | utils.py:40 | two hex digests are equal if and only if the digests are |
| `Utils.ContentHashIsHex` | utils.py:39-40 | the content hash (`ContentHash`, also the identical copy at app.py:58-59) is 64 lower-case hex characters |
| `Utils.SameHashSameDigest` | app.py:123-125 | two texts' content hashes are equal if and only if their SHA-256 digests are |
| `Store.UnchangedMeansSameDigest` | app.py:123-127 | when every stored hash is current, an equal stored hash means the cached content has the same digest as the new text |
| `Store.ContentCollection.FindOne` | app.py:112 | the point lookup returns the URL's record or nothing, and changes no record |
| `Store.ContentCollection.UpdateOne` | app.py:138 | the upsert maps the URL to the new record and leaves every other URL unchanged |
| `FlaskApp.App.Explore` | app.py:102-144 | GET, empty URL ("URL is required") and rejected URL ("Invalid URL format") touch neither the collection nor the network. A fresh record (`IsFresh`, app.py:113: `now - timestamp` strictly under five minutes, 300000000 microseconds) is served with facts defaulting to "", with no fetch, model call or write. A request fetches exactly once and falls into one of three cases. A transport error or 4xx/5xx status is "Error fetching content" and an extractor failure is "Unexpected error"; neither calls the model or writes. An unchanged hash serves the stored content and facts without a model call or write. Otherwise the model is called once: a parsed reply upserts {text, hash, facts, writeTime} for this URL only, a parse failure shows the raw reply with "Unexpected error" and writes nothing, and a model call that raises shows facts "" with "Unexpected error" and writes nothing. Current hashes stay current |
| `FlaskApp.App.Refresh` | app.py:117-142 | one fetch and no lookup. Through `Download` (app.py:118-122), a transport error or a 4xx/5xx status gives "Error fetching content" and an extractor failure "Unexpected error", neither with a model call or a write; otherwise the outcome is `Summarise`'s. Current hashes stay current |
| `FlaskApp.App.Summarise` | app.py:123-138 | an unchanged stored hash serves the stored content and facts with no model call or write. Otherwise the model is called once: a parsed reply upserts {text, hash, facts, writeTime} for this URL only and shows the facts; a parse failure shows the raw reply with "Unexpected error" and writes nothing; a model call that raises (`AskModel`, app.py:90-93) ends as "Unexpected error" with facts "" and no write |
| `FlaskApp.FirstRefresh` | app.py:128-138 | refreshing a URL the collection has no record for, with a reply that parses, makes one model call and one write that adds this URL's record and keeps every other record; the page and the new record carry the text and the parsed facts |
| `FlaskApp.FirstVisit` | app.py:112-138 | the first request for a URL on an empty collection makes one fetch and one model call and leaves exactly that URL's record, with the text, its hash, the parsed facts and the request time |
| `FlaskApp.RevisitWithinWindow` | app.py:112-115 | on an empty collection, a repeat request less than five minutes after the first gets the first page back unchanged from the collection, whatever the network and the model would answer by then (`later`) |
| `FlaskApp.RevisitAfterWindow` | app.py:113-127 | a request five minutes or more after its record was written, with the text unchanged, gets the stored content and facts back through the hash check |
| `FastApiApp.App.ExplorePost` | main.py:41-87 | an empty URL and an invalid one both give "URL is required", with no lookup and no fetch. The fresh (`IsFresh`, the same strict test at main.py:56), unchanged and refresh tiers behave as in the Flask handler, with the same guarantees on fetches, model calls and writes. Only a transport error is "Error fetching content"; a non-2xx status, an extractor failure and a parse failure are "Unexpected error". Current hashes stay current |
| `FastApiApp.App.Refresh` | main.py:60-85 | one fetch and no lookup. Through `Download` (main.py:61-66), only a transport error gives "Error fetching content"; a non-2xx status and an extractor failure give "Unexpected error", neither with a model call or a write; otherwise the outcome is `Summarise`'s. Current hashes stay current |
| `FastApiApp.App.Summarise` | main.py:67-81 | as in the Flask handler: the hash check, one model call, and an upsert for a parsed reply or the raw reply with "Unexpected error"; a model call that raises gives its error text as the reply |
| `FastApiApp.ModelFailureFindsNoJson` | utils.py:70-72 | a model call that raises yields the text "Unexpected error occurred <exception> ", which (for an exception text without a backtick) ends in "No JSON found in the content." |
| `FastApiApp.FirstRefresh` | main.py:71-81 | as in the Flask handler: refreshing a URL without a record, with a parsing reply, makes one model call and one write that adds this URL's record and keeps every other record |
| `FastApiApp.FirstVisit` | main.py:55-81 | the first request for a URL on an empty collection makes one fetch and one model call and leaves exactly that URL's record, with the text, its hash, the parsed facts and the request time |
| `FastApiApp.RevisitWithinWindow` | main.py:55-58 | on an empty collection, a repeat request less than five minutes after the first gets the first page back unchanged from the collection, whatever the network and the model would answer by then (`later`) |
| `FastApiApp.RevisitAfterWindow` | main.py:56-70 | a request five minutes or more after its record was written, with the text unchanged, gets the stored content and facts back through the hash check |

## Left out

- Routing, templates and static files (Flask, FastAPI, Jinja), the `/` pages and main.py's `explore_get`: framework plumbing. The model stops at the context handed to the template.
- The MongoDB client, its connection errors and the async `find_one` / `update_one`: the collection is an in-memory map. BSON's millisecond truncation of stored timestamps is not modelled.
- Records that lack `content` or `timestamp` (a `KeyError`). The handlers always write both fields, so such a record can only come from outside this system.
- HTTP fetching (`requests`, `httpx`, redirects, timeouts): an oracle that returns a status and body or a transport failure.
- The article extractor (boilerpy3): an oracle that returns text or fails.
- SHA-256 itself and UTF-8 encoding: an abstract function from text to 32 bytes. Collision-freedom is not claimed. Encoding failure on lone surrogates cannot occur in the model, whose characters are Unicode scalar values.
- The URL schema (pydantic `HttpUrl`): an abstract predicate.
- `json.loads`: an abstract partial decoder. The fact-check payload is passed through unvalidated, as in the source.
- The Gemini call and its prompt (app.py:61-89, utils.py:43-70): an oracle from text to the reply text or the text of the exception it raised. What each handler makes of a raised exception is modelled (`FlaskApp.AskModel`, `FastApiApp.AskModel`); the exception's text shown after "Unexpected error: " in app.py is not.
- The text of exceptions shown after "Error fetching content: " and "Unexpected error: ": the page error carries the exception as structured data (`View.Cause`). For parse errors the `ValueError` message is modelled (`Utils.JsonError.Message`).
- A Python `str` stored as `facts` and a decoded JSON string are both plain text to the template. The model keeps them apart (`Raw` and `Decoded`).
- `datetime.now()`: integer time parameters.
- Concurrent requests for the same URL: each request runs to completion on its own. The concurrency is the point of that race, so it is left out.
- A missing form field in main.py: FastAPI rejects the request before the handler runs.
