/**
 * The helpers of utils.py (app.py carries identical copies of the first
 * three): URL validation, locating and decoding the fenced JSON block in the
 * model's reply, and the content fingerprint.
 */
module Utils {
  import opened Wrappers
  import opened Text

  /** A decoded JSON document; its shape is whatever the model returned, passed through unvalidated. */
  datatype Json =
    | JNull
    | JBool(b: bool)
    | JNumber(literal: string)
    | JString(s: string)
    | JArray(items: seq<Json>)
    | JObject(members: seq<(string, Json)>)

  /**
   * `validate_url`: the URL itself when the URL schema accepts it, `None`
   * otherwise. The schema (an absolute http(s) URL) is the predicate `accepts`.
   */
  function ValidateUrl(accepts: string -> bool, url: string): (r: Option<string>)
    ensures r.Some? <==> accepts(url)
    ensures r.Some? ==> r.value == url
  {
    if accepts(url) then Some(url) else None
  }

  // ---------------------------------------------------------------------------
  // Locating the fenced block: re.search(r'```json(.*?)```', content, re.DOTALL)

  const JsonMarker: string := "```json"
  const Fence: string := "```"

  /**
   * The pattern matches at (i, j): the marker starts at `i`, the closing
   * fence at `j`, no earlier than the end of the marker. Under DOTALL the
   * group `(.*?)` is any text, newlines included: content[i + 7..j].
   */
  ghost predicate PatternMatch(s: string, i: nat, j: nat) {
    OccursAt(s, JsonMarker, i) && i + |JsonMarker| <= j && OccursAt(s, Fence, j)
  }

  /**
   * The match `re.search` reports: the leftmost starting position at which
   * the pattern matches, and for it the shortest group (the lazy `*?`).
   */
  ghost predicate IsSearchResult(s: string, i: nat, j: nat) {
    && PatternMatch(s, i, j)
    && (forall i0, j0 :: PatternMatch(s, i0, j0) ==> i <= i0)
    && (forall j0 :: PatternMatch(s, i, j0) ==> j <= j0)
  }

  /** Where the fenced block is: the marker's start and the closing fence's start. */
  datatype Block = Block(open: nat, close: nat)

  /**
   * Finds the first "```json" and then the first "```" after it. This is
   * exactly the regular-expression search: when the first marker has no
   * fence after it, no later marker has one either.
   */
  function LocateBlock(s: string): (r: Option<Block>)
    ensures r.Some? ==> IsSearchResult(s, r.value.open, r.value.close)
    ensures r.None? ==> forall i, j :: !PatternMatch(s, i, j)
  {
    match FindFrom(s, JsonMarker, 0)
    case None => None
    case Some(i) =>
      match FindFrom(s, Fence, i + |JsonMarker|)
      case None => None
      case Some(j) => Some(Block(i, j))
  }

  /** The two `ValueError`s `extract_json_from_content` raises, with their messages. */
  datatype JsonError = NoJsonFound | DecodeError(detail: string) {
    function Message(): string {
      match this
      case NoJsonFound => "No JSON found in the content."
      case DecodeError(detail) => "Error decoding JSON: " + detail
    }
  }

  /** The outcome of handing `text` to `json.loads`, a decode failure turned into the `ValueError` the source raises. */
  function Loads(loads: string -> Result<Json, string>, text: string): Result<Json, JsonError> {
    match loads(text)
    case Success(v) => Success(v)
    case Failure(e) => Failure(DecodeError(e))
  }

  /**
   * `extract_json_from_content`: the text of the regular-expression group,
   * stripped, decoded by `loads` (Python's `json.loads`).
   */
  function ExtractJson(content: string, loads: string -> Result<Json, string>): Result<Json, JsonError> {
    match LocateBlock(content)
    case None => Failure(NoJsonFound)
    case Some(b) => Loads(loads, Strip(content[b.open + |JsonMarker|..b.close]))
  }

  /**
   * What `ExtractJson` means in terms of the regular-expression search:
   * "No JSON found" exactly when the pattern matches nowhere; otherwise what
   * `loads` makes of the stripped group of the match `re.search` reports.
   */
  lemma ExtractJsonMeaning(content: string, loads: string -> Result<Json, string>)
    ensures ExtractJson(content, loads) == Failure(NoJsonFound) <==> forall i, j :: !PatternMatch(content, i, j)
    ensures forall i: nat, j: nat :: IsSearchResult(content, i, j) ==>
              ExtractJson(content, loads) == Loads(loads, Strip(content[i + |JsonMarker|..j]))
  {
    match LocateBlock(content)
    case None =>
    case Some(b) =>
      forall i: nat, j: nat | IsSearchResult(content, i, j)
        ensures ExtractJson(content, loads) == Loads(loads, Strip(content[i + |JsonMarker|..j]))
      {
        SearchResultUnique(content, i, j, b.open, b.close);
      }
  }

  /** The search result is unique: the leftmost start, and for it the earliest fence. */
  lemma SearchResultUnique(s: string, i: nat, j: nat, i': nat, j': nat)
    requires IsSearchResult(s, i, j) && IsSearchResult(s, i', j')
    ensures i == i' && j == j'
  {
  }

  /** No character of `s` is a backtick, so no fence can start in it. */
  predicate NoBacktick(s: string) {
    forall k :: 0 <= k < |s| ==> s[k] != '`'
  }

  /** A text without a backtick has no fenced block: "No JSON found in the content.". */
  lemma NoBacktickFindsNoJson(s: string, loads: string -> Result<Json, string>)
    requires NoBacktick(s)
    ensures ExtractJson(s, loads) == Failure(NoJsonFound)
  {
    forall k: nat ensures !OccursAt(s, JsonMarker, k) {
      if k + |JsonMarker| <= |s| {
        assert s[k..k + |JsonMarker|][0] == s[k];
      }
    }
    assert FindFrom(s, JsonMarker, 0).None?;
  }

  /**
   * A reply made of a preamble, one fenced block and anything after it
   * decodes to exactly what `loads` makes of the stripped block body.
   */
  lemma {:induction false} FencedReplyDecodes(before: string, body: string, after: string, loads: string -> Result<Json, string>)
    requires NoBacktick(before) && NoBacktick(body)
    ensures ExtractJson(before + JsonMarker + body + Fence + after, loads) == Loads(loads, Strip(body))
  {
    var s := before + JsonMarker + body + Fence + after;
    var p := before + JsonMarker;
    var i, j := |before|, |p| + |body|;
    FencedBlockIsSearchResult(before, body, after);
    var b := LocateBlock(s);
    assert b.Some? by {
      assert PatternMatch(s, i, j);
    }
    SearchResultUnique(s, i, j, b.value.open, b.value.close);
    assert s == p + body + (Fence + after);
    assert s[|p|..|p| + |body|] == body;
  }

  /** In such a reply the search finds the marker right after the preamble and the fence right after the body. */
  lemma FencedBlockIsSearchResult(before: string, body: string, after: string)
    requires NoBacktick(before) && NoBacktick(body)
    ensures IsSearchResult(before + JsonMarker + body + Fence + after, |before|, |before| + |JsonMarker| + |body|)
  {
    var s := before + JsonMarker + body + Fence + after;
    var i, j := |before|, |before| + |JsonMarker| + |body|;
    assert PatternMatch(s, i, j) by {
      assert s[i..i + |JsonMarker|] == JsonMarker;
      assert s[j..j + |Fence|] == Fence;
    }
    assert forall k :: 0 <= k < i ==> s[k] == before[k];
    assert forall k :: i + |JsonMarker| <= k < j ==> s[k] == body[k - i - |JsonMarker|];
    forall i0: nat, j0: nat | PatternMatch(s, i0, j0) ensures i <= i0 {
      assert s[i0] == s[i0..i0 + |JsonMarker|][0];
    }
    forall j0: nat | PatternMatch(s, i, j0) ensures j <= j0 {
      assert s[j0] == s[j0..j0 + |Fence|][0];
    }
  }

  // ---------------------------------------------------------------------------
  // The content fingerprint: hashlib.sha256(content.encode('utf-8')).hexdigest()

  type Byte = b: int | 0 <= b < 256

  /** A SHA-256 digest: 32 bytes. */
  type Digest = d: seq<Byte> | |d| == 32 witness seq(32, _ => 0)

  predicate IsHexDigit(c: char) {
    '0' <= c <= '9' || 'a' <= c <= 'f'
  }

  /** The lower-case hexadecimal digit for a value below 16. */
  function HexDigit(v: nat): (c: char)
    requires v < 16
    ensures IsHexDigit(c)
  {
    if v < 10 then (48 + v) as char else (87 + v) as char
  }

  function HexValue(c: char): (v: nat)
    requires IsHexDigit(c)
    ensures v < 16 && HexDigit(v) == c
  {
    if c <= '9' then (c as int) - 48 else (c as int) - 87
  }

  /** `hexdigest()`: two lower-case hexadecimal digits per byte, high nibble first. */
  function HexDigest(d: seq<Byte>): (h: string)
    ensures |h| == 2 * |d|
    ensures forall k :: 0 <= k < |h| ==> IsHexDigit(h[k])
  {
    if d == [] then [] else [HexDigit(d[0] / 16), HexDigit(d[0] % 16)] + HexDigest(d[1..])
  }

  /** Reads a hexadecimal digest back into bytes. */
  function Unhex(h: string): (d: seq<Byte>)
    requires |h| % 2 == 0
    requires forall k :: 0 <= k < |h| ==> IsHexDigit(h[k])
    ensures |d| == |h| / 2
  {
    if h == [] then [] else [16 * HexValue(h[0]) + HexValue(h[1])] + Unhex(h[2..])
  }

  lemma {:induction false} UnhexHexDigest(d: seq<Byte>)
    ensures Unhex(HexDigest(d)) == d
  {
    if d != [] {
      var h := HexDigest(d);
      assert h[2..] == HexDigest(d[1..]);
      UnhexHexDigest(d[1..]);
      assert HexValue(h[0]) == d[0] / 16;
      assert HexValue(h[1]) == d[0] % 16;
    }
  }

  /** Two hex digests are equal exactly when the digests are. */
  lemma HexDigestInjective(a: seq<Byte>, b: seq<Byte>)
    ensures HexDigest(a) == HexDigest(b) <==> a == b
  {
    if HexDigest(a) == HexDigest(b) {
      UnhexHexDigest(a);
      UnhexHexDigest(b);
    }
  }

  /**
   * `generate_content_hash`: the hex digest of SHA-256 over the text.
   * `sha256` stands for the hash of the text's UTF-8 encoding; it is a
   * function, so equal texts always get equal fingerprints.
   */
  function ContentHash(sha256: string -> Digest, content: string): string {
    HexDigest(sha256(content))
  }

  /** The content hash is a 64-character lower-case hexadecimal string. */
  lemma ContentHashIsHex(sha256: string -> Digest, content: string)
    ensures |ContentHash(sha256, content)| == 64
    ensures forall k :: 0 <= k < 64 ==> IsHexDigit(ContentHash(sha256, content)[k])
  {
    var d := sha256(content);
    assert |HexDigest(d)| == 2 * |d|;
  }

  /** Comparing fingerprints compares the SHA-256 digests of the texts, neither more nor less. */
  lemma SameHashSameDigest(sha256: string -> Digest, a: string, b: string)
    ensures ContentHash(sha256, a) == ContentHash(sha256, b) <==> sha256(a) == sha256(b)
  {
    HexDigestInjective(sha256(a), sha256(b));
  }
}
