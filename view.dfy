/** What a request hands to the page template, and the collaborators a request consults. */
module View {
  import opened Wrappers
  import opened Utils
  import opened Store

  /** The `facts` the template shows: a plain string (initially "", or the raw model reply) or a decoded JSON value. */
  datatype FactsView = Raw(text: string) | Decoded(value: Json)

  /** The exception behind an error message. */
  datatype Cause =
    | Transport(detail: string)
    | HttpStatus(status: int)
    | Extraction(detail: string)
    | Parse(error: JsonError)
    /**
     * A failed language-model call in app.py. Its handler names
     * `genai.GenerativeAIException`, which the library does not define, so
     * matching any exception against that clause raises an `AttributeError`,
     * and that is what reaches the request handler.
     */
    | ModelCall

  datatype PageError =
    | UrlRequired
    | InvalidUrlFormat
    | FetchingContent(cause: Cause)
    | Unexpected(cause: Cause)
  {
    /** The fixed text of the message; for the last two the exception's own text follows after ": ". */
    function Headline(): string {
      match this
      case UrlRequired => "URL is required"
      case InvalidUrlFormat => "Invalid URL format"
      case FetchingContent(_) => "Error fetching content"
      case Unexpected(_) => "Unexpected error"
    }
  }

  /** The template context: `url` (None when validation returned None), `content`, `facts`, `error`. */
  datatype Page = Page(url: Option<string>, content: string, facts: FactsView, error: Option<PageError>)

  /** `cached_content.get("facts", "")`. */
  function StoredFacts(r: ContentRecord): FactsView {
    match r.facts
    case Some(j) => Decoded(j)
    case None => Raw("")
  }

  /** What an HTTP GET produced: a response with its status and body text, or a transport failure. */
  datatype FetchResult = Response(status: int, text: string) | RequestFailed(detail: string)

  /**
   * The outside world as one request sees it: the URL schema, the HTTP
   * client, the article extractor, SHA-256 over UTF-8, the language model
   * (its reply text, or the text of the exception the call raised) and
   * `json.loads`.
   */
  datatype Collaborators = Collaborators(
    acceptsUrl: string -> bool,
    get: string -> FetchResult,
    extractArticle: string -> Result<string, string>,
    sha256: string -> Digest,
    generateFacts: string -> Result<string, string>,
    loads: string -> Result<Json, string>)
}
