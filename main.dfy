/** The FastAPI application of main.py: the `POST /explore` handler, built on the helpers of utils.py. */
module FastApiApp {
  import opened Wrappers
  import opened Text
  import opened Utils
  import opened Store
  import opened View

  /**
   * `raise_for_status()` of httpx raises for every status outside 2xx
   * (httpx does not follow redirects unless asked, so 3xx counts too).
   */
  predicate RaisesForStatus(status: int) {
    !(200 <= status < 300)
  }

  /** `validate_url(url.strip())`: the value `url` holds after line 49. */
  function Validated(env: Collaborators, urlField: string): Option<string> {
    ValidateUrl(env.acceptsUrl, Strip(urlField))
  }

  /** The URL survives validation and is not empty: the requests that reach the collection. */
  predicate Accepted(env: Collaborators, urlField: string) {
    Validated(env, urlField).Some? && Validated(env, urlField).value != ""
  }

  /** An accepted request whose URL has no fresh record: it goes to the network. */
  predicate Refetches(env: Collaborators, urlField: string, documents: map<string, ContentRecord>, now: int) {
    var url := Strip(urlField);
    Accepted(env, urlField) && !(url in documents && IsFresh(documents[url], now))
  }

  /**
   * Fetch, status check and article extraction, with the message each
   * failure ends in. Only an `httpx.RequestError` (a transport failure) is
   * "Error fetching content"; the status check raises `HTTPStatusError`,
   * which is not a `RequestError`, so a bad status is "Unexpected error",
   * as is anything the extractor raises.
   */
  function Download(env: Collaborators, url: string): Result<string, PageError> {
    match env.get(url)
    case RequestFailed(detail) => Failure(FetchingContent(Transport(detail)))
    case Response(status, html) =>
      if RaisesForStatus(status) then Failure(Unexpected(HttpStatus(status)))
      else
        match env.extractArticle(html)
        case Failure(detail) => Failure(Unexpected(Extraction(detail)))
        case Success(text) => Success(text)
  }

  /**
   * `extract_facts_via_google_gemini` of utils.py: the model's reply text,
   * or for any exception the call raises the text "Unexpected error
   * occurred " followed by the exception's text and a space.
   */
  function AskModel(env: Collaborators, text: string): string {
    match env.generateFacts(text)
    case Success(reply) => reply
    case Failure(e) => ModelErrorText(e)
  }

  /** The text utils.py returns in place of a reply when the model call raises `e`. */
  function ModelErrorText(e: string): string {
    "Unexpected error occurred " + e + " "
  }

  /**
   * A failed model call is never taken for facts: its error text holds no
   * fenced block (as long as the exception's text has no backtick), so the
   * page shows "No JSON found in the content.".
   */
  lemma {:induction false} ModelFailureFindsNoJson(env: Collaborators, text: string)
    requires env.generateFacts(text).Failure? && NoBacktick(env.generateFacts(text).error)
    ensures ExtractJson(AskModel(env, text), env.loads) == Failure(NoJsonFound)
  {
    var e := env.generateFacts(text).error;
    var prefix := "Unexpected error occurred ";
    assert forall k :: 0 <= k < |prefix| ==> prefix[k] != '`';
    assert ModelErrorText(e) == prefix + e + " ";
    NoBacktickFindsNoJson(ModelErrorText(e), env.loads);
  }

  /** The facts the model call and the parse of its reply yield for `text`, when the parse succeeds. */
  function ModelFacts(env: Collaborators, text: string): Option<Json> {
    match ExtractJson(AskModel(env, text), env.loads)
    case Success(facts) => Some(facts)
    case Failure(_) => None
  }

  /** The looked-up record's hash equals the hash of the newly extracted text. */
  predicate Unchanged(env: Collaborators, cached: Option<ContentRecord>, text: string) {
    cached.Some? && cached.value.contentHash == Some(ContentHash(env.sha256, text))
  }

  class App {
    const contentCollection: ContentCollection
    /** How many times a page was fetched over HTTP. */
    ghost var fetchCalls: nat
    /** How many times the language model was called. */
    ghost var llmCalls: nat

    constructor (collection: ContentCollection)
      ensures contentCollection == collection && fetchCalls == 0 && llmCalls == 0
    {
      contentCollection := collection;
      fetchCalls, llmCalls := 0, 0;
    }

    /**
     * `explore_post`: the same three tiers as the Flask handler (fresh
     * record, unchanged hash, model call and upsert), with its own
     * validation message and error classification. `now` is the time of the
     * freshness check, `writeTime` the time stamped on a new record.
     */
    method ExplorePost(env: Collaborators, urlField: string, now: int, writeTime: int) returns (page: Page)
      modifies this, contentCollection
      // An empty URL and a URL that fails validation both get "URL is required",
      // before the collection or the network is consulted.
      ensures !Accepted(env, urlField) ==>
                page == Page(Validated(env, urlField), "", Raw(""), Some(UrlRequired)) && unchanged(this, contentCollection)
      // An accepted URL is looked up exactly once.
      ensures Accepted(env, urlField) ==> contentCollection.lookups == old(contentCollection.lookups) + 1
      // Fresh hit: the stored content and facts, nothing fetched, nothing written.
      ensures var url, docs := Strip(urlField), old(contentCollection.documents);
              Accepted(env, urlField) && url in docs && IsFresh(docs[url], now) ==>
                && page == Page(Some(url), docs[url].content, StoredFacts(docs[url]), None)
                && fetchCalls == old(fetchCalls) && llmCalls == old(llmCalls)
                && contentCollection.documents == docs && contentCollection.writes == old(contentCollection.writes)
      // Otherwise exactly one fetch, and the page is what the refresh below produces.
      ensures var url, docs := Strip(urlField), old(contentCollection.documents);
              Refetches(env, urlField, docs, now) ==>
                && fetchCalls == old(fetchCalls) + 1
                && RefreshOutcome(env, url, Lookup(docs, url), docs, writeTime, page, contentCollection.documents, llmCalls - old(llmCalls), contentCollection.writes - old(contentCollection.writes))
      // Every record this handler writes carries the hash of its own content.
      ensures old(HashesCurrent(contentCollection.documents, env.sha256)) ==> HashesCurrent(contentCollection.documents, env.sha256)
    {
      var content := "";
      var facts := Raw("");
      var error: Option<PageError> := None;

      var stripped := Strip(urlField);
      var url := ValidateUrl(env.acceptsUrl, stripped);

      if url.None? || url.value == "" {
        error := Some(UrlRequired);
        return Page(url, content, facts, error);
      }

      var cached := contentCollection.FindOne(stripped);
      if cached.Some? && IsFresh(cached.value, now) {
        content := cached.value.content;
        facts := StoredFacts(cached.value);
      } else {
        content, facts, error := Refresh(env, stripped, cached, writeTime);
      }
      page := Page(url, content, facts, error);
    }

    /**
     * The `try` block of `explore_post`: fetch, extract and hash, then serve the
     * looked-up record when its hash is unchanged, or call the model, parse
     * its reply and upsert the URL's record.
     */
    method Refresh(env: Collaborators, url: string, cached: Option<ContentRecord>, writeTime: int)
      returns (content: string, facts: FactsView, error: Option<PageError>)
      requires cached == Lookup(contentCollection.documents, url)
      modifies this, contentCollection
      ensures fetchCalls == old(fetchCalls) + 1
      ensures contentCollection.lookups == old(contentCollection.lookups)
      ensures RefreshOutcome(env, url, cached, old(contentCollection.documents), writeTime, Page(Some(url), content, facts, error),
                             contentCollection.documents, llmCalls - old(llmCalls), contentCollection.writes - old(contentCollection.writes))
      ensures old(HashesCurrent(contentCollection.documents, env.sha256)) ==> HashesCurrent(contentCollection.documents, env.sha256)
    {
      content, facts, error := "", Raw(""), None;
      fetchCalls := fetchCalls + 1;
      var response := env.get(url);
      if response.RequestFailed? {
        error := Some(FetchingContent(Transport(response.detail)));
      } else if RaisesForStatus(response.status) {
        error := Some(Unexpected(HttpStatus(response.status)));
      } else {
        var extracted := env.extractArticle(response.text);
        if extracted.Failure? {
          error := Some(Unexpected(Extraction(extracted.error)));
        } else {
          content, facts, error := Summarise(env, url, cached, extracted.value, writeTime);
        }
      }
    }

    /**
     * The rest of the `try` block of `explore_post`, once the article text is
     * extracted: hash it, serve the looked-up record when its hash is
     * unchanged, or call the model, parse its reply and upsert the URL's
     * record.
     */
    method Summarise(env: Collaborators, url: string, cached: Option<ContentRecord>, text: string, writeTime: int)
      returns (content: string, facts: FactsView, error: Option<PageError>)
      requires cached == Lookup(contentCollection.documents, url)
      modifies this, contentCollection
      ensures fetchCalls == old(fetchCalls)
      ensures contentCollection.lookups == old(contentCollection.lookups)
      ensures SummaryOutcome(env, url, cached, old(contentCollection.documents), writeTime, text, Page(Some(url), content, facts, error),
                             contentCollection.documents, llmCalls - old(llmCalls), contentCollection.writes - old(contentCollection.writes))
      ensures old(HashesCurrent(contentCollection.documents, env.sha256)) ==> HashesCurrent(contentCollection.documents, env.sha256)
    {
      content, facts, error := text, Raw(""), None;
      var newContentHash := ContentHash(env.sha256, content);
      if cached.Some? && cached.value.contentHash == Some(newContentHash) {
        content := cached.value.content;
        facts := StoredFacts(cached.value);
      } else {
        llmCalls := llmCalls + 1;
        var reply := AskModel(env, content);
        facts := Raw(reply);
        var parsed := ExtractJson(reply, env.loads);
        if parsed.Failure? {
          error := Some(Unexpected(Parse(parsed.error)));
        } else {
          facts := Decoded(parsed.value);
          contentCollection.UpdateOne(url, ContentRecord(content, Some(newContentHash), Some(parsed.value), writeTime));
        }
      }
    }
  }

  /**
   * What the refresh of `url` leaves behind, given the looked-up record
   * `cached`, the collection `docs` before it, the page, the collection
   * after it, and how many model calls and writes it made. A failed fetch
   * or extraction: an error, no model call, no write. Otherwise as below.
   */
  ghost predicate RefreshOutcome(env: Collaborators, url: string, cached: Option<ContentRecord>, docs: map<string, ContentRecord>, writeTime: int,
                                 page: Page, docsAfter: map<string, ContentRecord>, modelCalls: int, writes: int)
  {
    match Download(env, url)
    case Failure(e) =>
      page == Page(Some(url), "", Raw(""), Some(e)) && modelCalls == 0 && docsAfter == docs && writes == 0
    case Success(text) =>
      SummaryOutcome(env, url, cached, docs, writeTime, text, page, docsAfter, modelCalls, writes)
  }

  /**
   * What happens once `text` is extracted. An unchanged hash: the stored
   * content and facts, no model call, no write (the timestamp is not
   * refreshed). New or changed content: one model call; a parsed reply is
   * upserted for this URL only, a reply that does not parse is shown raw
   * with the parse error and nothing is written.
   */
  ghost predicate SummaryOutcome(env: Collaborators, url: string, cached: Option<ContentRecord>, docs: map<string, ContentRecord>, writeTime: int,
                                 text: string, page: Page, docsAfter: map<string, ContentRecord>, modelCalls: int, writes: int)
  {
    if Unchanged(env, cached, text) then
      page == Page(Some(url), cached.value.content, StoredFacts(cached.value), None) && modelCalls == 0 && docsAfter == docs && writes == 0
    else
      var reply := AskModel(env, text);
      && modelCalls == 1
      && match ExtractJson(reply, env.loads)
         case Success(facts) =>
           && docsAfter == docs[url := ContentRecord(text, Some(ContentHash(env.sha256, text)), Some(facts), writeTime)]
           && writes == 1
           && page == Page(Some(url), text, Decoded(facts), None)
         case Failure(e) =>
           docsAfter == docs && writes == 0 && page == Page(Some(url), text, Raw(reply), Some(Unexpected(Parse(e))))
  }

  /**
   * A refresh of a URL the collection has no record for, whose text
   * extracts and whose model reply parses: one model call, one write that
   * adds this URL's record and leaves every other record as it was, and the
   * page and the new record both hold the text and the parsed facts.
   */
  lemma FirstRefresh(env: Collaborators, url: string, docs: map<string, ContentRecord>, writeTime: int,
                     page: Page, docsAfter: map<string, ContentRecord>, modelCalls: int, writes: int)
    requires url !in docs
    requires Download(env, url).Success? && ModelFacts(env, Download(env, url).value).Some?
    requires RefreshOutcome(env, url, Lookup(docs, url), docs, writeTime, page, docsAfter, modelCalls, writes)
    ensures var text := Download(env, url).value;
            var facts := ModelFacts(env, text).value;
            && page == Page(Some(url), text, Decoded(facts), None)
            && docsAfter == docs[url := ContentRecord(text, Some(ContentHash(env.sha256, text)), Some(facts), writeTime)]
            && modelCalls == 1 && writes == 1
  {
  }

  /**
   * The first request for a URL, on a new app over an empty collection:
   * one fetch and one model call, and the collection then holds exactly the
   * URL's record, stamped `firstTime`.
   */
  method FirstVisit(env: Collaborators, urlField: string, firstTime: int) returns (app: App, first: Page)
    requires Accepted(env, urlField)
    requires Download(env, Strip(urlField)).Success?
    requires ModelFacts(env, Download(env, Strip(urlField)).value).Some?
    ensures fresh(app) && fresh(app.contentCollection)
    ensures var url := Strip(urlField);
            var text := Download(env, url).value;
            var facts := ModelFacts(env, text).value;
            && first == Page(Some(url), text, Decoded(facts), None)
            && app.contentCollection.documents == map[url := ContentRecord(text, Some(ContentHash(env.sha256, text)), Some(facts), firstTime)]
            && app.fetchCalls == 1 && app.llmCalls == 1 && app.contentCollection.writes == 1
  {
    var collection := new ContentCollection();
    app := new App(collection);
    first := app.ExplorePost(env, urlField, firstTime, firstTime);
    FirstRefresh(env, Strip(urlField), map[], firstTime, first, collection.documents, app.llmCalls, collection.writes);
  }

  /**
   * Two requests for the same URL against an empty collection: the first
   * fetches, calls the model and stores its facts; a second one less than
   * five minutes later gets the same page from the collection. The second
   * request sees the world as `later`, whose pages and model replies may
   * differ from the first's: it neither fetches nor calls the model, so
   * they cannot show.
   */
  method RevisitWithinWindow(env: Collaborators, later: Collaborators, urlField: string, firstTime: int, secondTime: int) returns (first: Page, second: Page)
    requires Accepted(env, urlField)
    requires Download(env, Strip(urlField)).Success?
    requires ModelFacts(env, Download(env, Strip(urlField)).value).Some?
    requires later.acceptsUrl == env.acceptsUrl
    requires secondTime - firstTime < FreshnessWindow
    ensures first.error == None && first.content == Download(env, Strip(urlField)).value
    ensures first.facts == Decoded(ModelFacts(env, first.content).value)
    ensures second == first
  {
    var app;
    app, first := FirstVisit(env, urlField, firstTime);
    ghost var url := Strip(urlField);
    ghost var record := app.contentCollection.documents[url];
    assert IsFresh(record, secondTime);
    assert Accepted(later, urlField);
    second := app.ExplorePost(later, urlField, secondTime, secondTime);
    assert app.fetchCalls == 1 && app.llmCalls == 1 && app.contentCollection.writes == 1;
  }

  /**
   * A request five minutes or more after the URL's record was written, for a
   * page whose extracted text is still the stored text: it fetches again but
   * gets the stored content and facts back without a model call or a write.
   */
  method RevisitAfterWindow(env: Collaborators, urlField: string, facts: Json, writtenAt: int, now: int) returns (page: Page)
    requires Accepted(env, urlField)
    requires Download(env, Strip(urlField)).Success?
    requires now - writtenAt >= FreshnessWindow
    ensures page == Page(Some(Strip(urlField)), Download(env, Strip(urlField)).value, Decoded(facts), None)
  {
    var url := Strip(urlField);
    var text := Download(env, url).value;
    var collection := new ContentCollection();
    collection.UpdateOne(url, ContentRecord(text, Some(ContentHash(env.sha256, text)), Some(facts), writtenAt));
    var app := new App(collection);
    page := app.ExplorePost(env, urlField, now, now);
    assert Unchanged(env, Lookup(collection.documents, url), text);
    assert app.fetchCalls == 1 && app.llmCalls == 0 && collection.writes == 1;
  }
}
