/**
 * The content collection: one document per URL, looked up by URL and
 * upserted by URL. It stands for the MongoDB collection `finollama.content`.
 */
module Store {
  import opened Wrappers
  import opened Utils

  /** `timedelta(minutes=5)`; times are integers in microseconds, the resolution of `datetime`. */
  const FreshnessWindow: int := 5 * 60 * 1000000

  /**
   * A stored document. `content_hash` and `facts` are read with `.get`, so a
   * document may lack them; `content` and `timestamp` are read by subscript.
   */
  datatype ContentRecord = ContentRecord(content: string, contentHash: Option<string>, facts: Option<Json>, timestamp: int)

  /** The record stored for `url`, if any: what `find_one({"url": url})` returns. */
  function Lookup(documents: map<string, ContentRecord>, url: string): Option<ContentRecord> {
    if url in documents then Some(documents[url]) else None
  }

  /** A record younger than five minutes (strictly) is served without any re-fetch. */
  predicate IsFresh(r: ContentRecord, now: int) {
    now - r.timestamp < FreshnessWindow
  }

  /** Every stored fingerprint is the fingerprint of the stored content (true of every record the handlers write). */
  ghost predicate HashesCurrent(documents: map<string, ContentRecord>, sha256: string -> Digest) {
    forall url :: url in documents ==> documents[url].contentHash == Some(ContentHash(sha256, documents[url].content))
  }

  /**
   * When the store's fingerprints are current, a stored hash that equals the
   * hash of newly extracted text means the stored text and the new text have
   * the same SHA-256 digest: the "unchanged" path serves content with the
   * new content's digest.
   */
  lemma UnchangedMeansSameDigest(documents: map<string, ContentRecord>, sha256: string -> Digest, url: string, text: string)
    requires HashesCurrent(documents, sha256) && url in documents
    requires documents[url].contentHash == Some(ContentHash(sha256, text))
    ensures sha256(documents[url].content) == sha256(text)
  {
    SameHashSameDigest(sha256, documents[url].content, text);
  }

  class ContentCollection {
    var documents: map<string, ContentRecord>
    /** How many times `find_one` has been called. */
    ghost var lookups: nat
    /** How many times `update_one` has been called. */
    ghost var writes: nat

    constructor ()
      ensures documents == map[] && lookups == 0 && writes == 0
    {
      documents := map[];
      lookups, writes := 0, 0;
    }

    /** `find_one({"url": url})`. */
    method FindOne(url: string) returns (found: Option<ContentRecord>)
      modifies this
      ensures found == Lookup(documents, url)
      ensures documents == old(documents) && writes == old(writes)
      ensures lookups == old(lookups) + 1
    {
      lookups := lookups + 1;
      found := if url in documents then Some(documents[url]) else None;
    }

    /** `update_one({"url": url}, {"$set": doc}, upsert=True)`: every field the model keeps is set, so the record is replaced or created. */
    method UpdateOne(url: string, doc: ContentRecord)
      modifies this
      ensures documents == old(documents)[url := doc]
      ensures lookups == old(lookups) && writes == old(writes) + 1
    {
      documents := documents[url := doc];
      writes := writes + 1;
    }
  }
}
