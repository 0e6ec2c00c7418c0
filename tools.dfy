// The two tools the specialised agents call: semantic search in the Qdrant knowledge base
// and a DuckDuckGo web search. Each returns one text for the language model, never raises,
// and lays its result blocks out joined by a fixed separator.
module Tools {
  import opened Wrappers
  import opened PyValues
  import opened Text
  import DataPipeline
  import VectorStore

  /** The tools as registered with the agents, by their registered names. */
  datatype Tool = VectorSearchKnowledgeBase | WebSearchCurrentEvents

  /** A connected Qdrant client, seen through what its `search` answers for a query vector and a limit. */
  datatype QdrantClient = QdrantClient(search: (Vector, nat) -> VectorStore.SearchService)

  /** `RagDeps(qdrant_client=...)`: the dependency the vector search tool receives; the client may be unset. */
  datatype RagDeps = RagDeps(qdrantClient: Option<QdrantClient>)

  /** What sits between two result blocks. */
  const BlockSeparator: string := "\n\n---\n\n"

  const MissingClientReply: string := "Error: Vector search cannot be performed due to missing client setup."
  const NoEmbeddingReply: string := "Error: Could not generate embedding for the search query."
  const NoDocumentsReply: string := "No relevant documents found in the knowledge base for this query."
  const NoContentReply: string := "Found relevant document references, but could not retrieve their content."
  const VectorErrorPrefix: string := "An unexpected error occurred during vector search: "
  const NoWebResultsReply: string := "No relevant results found on the web for this query."
  const WebErrorPrefix: string := "An unexpected error occurred during web search: "

  /** `config.WEB_SEARCH_MAX_RESULTS`, passed on to the search engine. */
  const WebSearchMaxResults: nat := 5

  // ---------------------------------------------------------------- vector_search_tool

  /** `doc.payload and "content" in doc.payload`. */
  predicate HasContent(doc: VectorStore.ScoredPoint)
  {
    doc.payload.Some? && "content" in doc.payload.value
  }

  /** The block for hit number i (counted from 0): `Document {i+1} (Score: {score}):\n{content}`. */
  function DocumentBlock(i: nat, doc: VectorStore.ScoredPoint): string
    requires HasContent(doc)
  {
    "Document " + Decimal(i + 1) + " (Score: " + doc.score + "):\n" + doc.payload.value["content"]
  }

  /** The blocks of the hits that carry content, in hit order, each numbered by its position among all hits. */
  function DocumentBlocks(hits: seq<VectorStore.ScoredPoint>): seq<string>
  {
    if hits == [] then []
    else
      var i := |hits| - 1;
      DocumentBlocks(hits[..i]) + (if HasContent(hits[i]) then [DocumentBlock(i, hits[i])] else [])
  }

  /** The positions of the hits that carry content, in order. */
  function ContentIndices(hits: seq<VectorStore.ScoredPoint>): seq<nat>
  {
    if hits == [] then []
    else
      var i := |hits| - 1;
      ContentIndices(hits[..i]) + (if HasContent(hits[i]) then [i] else [])
  }

  /**
   * The positions of the content-carrying hits: strictly increasing, in range, each one
   * a hit with content, and every hit with content among them.
   */
  lemma {:induction false} ContentIndicesExact(hits: seq<VectorStore.ScoredPoint>)
    ensures forall j :: 0 <= j < |ContentIndices(hits)| ==>
      ContentIndices(hits)[j] < |hits| && HasContent(hits[ContentIndices(hits)[j]])
    ensures forall j, j' :: 0 <= j < j' < |ContentIndices(hits)| ==> ContentIndices(hits)[j] < ContentIndices(hits)[j']
    ensures forall k :: 0 <= k < |hits| && HasContent(hits[k]) ==> k in ContentIndices(hits)
  {
    ContentIndicesInRange(hits);
    ContentIndicesIncrease(hits);
    ContentIndicesComplete(hits);
  }

  lemma {:induction false} ContentIndicesInRange(hits: seq<VectorStore.ScoredPoint>)
    ensures forall j :: 0 <= j < |ContentIndices(hits)| ==>
      ContentIndices(hits)[j] < |hits| && HasContent(hits[ContentIndices(hits)[j]])
  {
    if hits != [] {
      var i := |hits| - 1;
      var init := hits[..i];
      ContentIndicesInRange(init);
      var before := ContentIndices(init);
      forall j | 0 <= j < |before| ensures init[before[j]] == hits[before[j]] { }
    }
  }

  lemma {:induction false} ContentIndicesIncrease(hits: seq<VectorStore.ScoredPoint>)
    ensures forall j, j' :: 0 <= j < j' < |ContentIndices(hits)| ==> ContentIndices(hits)[j] < ContentIndices(hits)[j']
  {
    if hits != [] {
      var i := |hits| - 1;
      var init := hits[..i];
      ContentIndicesIncrease(init);
      ContentIndicesInRange(init);
    }
  }

  lemma {:induction false} ContentIndicesComplete(hits: seq<VectorStore.ScoredPoint>)
    ensures forall k :: 0 <= k < |hits| && HasContent(hits[k]) ==> k in ContentIndices(hits)
  {
    if hits != [] {
      var i := |hits| - 1;
      var init := hits[..i];
      ContentIndicesComplete(init);
      forall k | 0 <= k < i ensures init[k] == hits[k] { }
    }
  }

  /**
   * Block j of the reply is the block of the j-th content-carrying hit, numbered by
   * that hit's own position: hits without content are skipped but still use up a number.
   */
  lemma {:induction false} DocumentBlocksFollowContent(hits: seq<VectorStore.ScoredPoint>)
    ensures |DocumentBlocks(hits)| == |ContentIndices(hits)|
    ensures forall j :: 0 <= j < |ContentIndices(hits)| ==>
      ContentIndices(hits)[j] < |hits| && HasContent(hits[ContentIndices(hits)[j]]) &&
      DocumentBlocks(hits)[j] == DocumentBlock(ContentIndices(hits)[j], hits[ContentIndices(hits)[j]])
  {
    ContentIndicesExact(hits);
    if hits != [] {
      var i := |hits| - 1;
      var init := hits[..i];
      DocumentBlocksFollowContent(init);
      ContentIndicesExact(init);
      forall j | 0 <= j < |ContentIndices(init)|
        ensures DocumentBlocks(hits)[j] == DocumentBlock(ContentIndices(hits)[j], hits[ContentIndices(hits)[j]])
      {
        assert init[ContentIndices(init)[j]] == hits[ContentIndices(init)[j]];
      }
    }
  }

  /** When every hit carries content there is one block per hit, block k numbered k+1. */
  lemma {:induction false} AllContentBlocks(hits: seq<VectorStore.ScoredPoint>)
    requires forall k :: 0 <= k < |hits| ==> HasContent(hits[k])
    ensures |DocumentBlocks(hits)| == |hits|
    ensures forall k :: 0 <= k < |hits| ==> DocumentBlocks(hits)[k] == DocumentBlock(k, hits[k])
  {
    if hits != [] {
      var i := |hits| - 1;
      var init := hits[..i];
      assert forall k :: 0 <= k < |init| ==> init[k] == hits[k];
      AllContentBlocks(init);
    }
  }

  /** There are no blocks exactly when no hit carries content. */
  lemma {:induction false} NoBlocksIffNoContent(hits: seq<VectorStore.ScoredPoint>)
    ensures DocumentBlocks(hits) == [] <==> forall k :: 0 <= k < |hits| ==> !HasContent(hits[k])
  {
    DocumentBlocksFollowContent(hits);
    ContentIndicesExact(hits);
    if DocumentBlocks(hits) != [] {
      assert HasContent(hits[ContentIndices(hits)[0]]);
    }
  }

  /** A reply built from blocks starts with a non-empty first block. */
  lemma DocumentBlocksNonEmpty(hits: seq<VectorStore.ScoredPoint>)
    requires DocumentBlocks(hits) != []
    ensures DocumentBlocks(hits)[0] != []
  {
    DocumentBlocksFollowContent(hits);
  }

  /**
   * What `vector_search_tool(ctx, query)` returns, given the Google API key and what the
   * embedding service answers for the one-text query list.
   */
  function VectorSearchReply(deps: Option<RagDeps>, query: string, apiKey: string, embed: DataPipeline.EmbedService): string
  {
    if deps.None? || deps.value.qdrantClient.None? then MissingClientReply
    else match DataPipeline.GetGoogleEmbeddings([query], apiKey, embed)
      case Raised(e) => VectorErrorPrefix + e.message
      case Returned(embeddings) =>
        if embeddings == [] then NoEmbeddingReply
        else
          var hits := VectorStore.SearchVectors(embeddings[0], VectorStore.RagTopK, deps.value.qdrantClient.value.search);
          if hits == [] then NoDocumentsReply
          else if DocumentBlocks(hits) == [] then NoContentReply
          else Join(DocumentBlocks(hits), BlockSeparator)
  }

  /** `vector_search_tool`: guard the client, embed the query, search, then collect one block per usable hit. */
  method VectorSearchTool(deps: Option<RagDeps>, query: string, apiKey: string, embed: DataPipeline.EmbedService)
    returns (r: string)
    ensures r == VectorSearchReply(deps, query, apiKey, embed)
  {
    if deps.None? || deps.value.qdrantClient.None? {
      return MissingClientReply;
    }
    var client := deps.value.qdrantClient.value;
    var queryEmbedding := DataPipeline.GetGoogleEmbeddings([query], apiKey, embed);
    if queryEmbedding.Raised? {
      return VectorErrorPrefix + queryEmbedding.error.message;
    }
    if queryEmbedding.value == [] {
      return NoEmbeddingReply;
    }
    var queryVector := queryEmbedding.value[0];
    var searchResults := VectorStore.SearchVectors(queryVector, VectorStore.RagTopK, client.search);
    if searchResults == [] {
      return NoDocumentsReply;
    }
    var contextPieces: seq<string> := [];
    for i := 0 to |searchResults|
      invariant contextPieces == DocumentBlocks(searchResults[..i])
    {
      var doc := searchResults[i];
      if HasContent(doc) {
        contextPieces := contextPieces + [DocumentBlock(i, doc)];
      }
      assert searchResults[..i + 1][..i] == searchResults[..i];
    }
    assert searchResults[..|searchResults|] == searchResults;
    if contextPieces == [] {
      return NoContentReply;
    }
    r := Join(contextPieces, BlockSeparator);
  }

  /** The tool always has something to say: the reply is never the empty text. */
  lemma VectorReplyNonEmpty(deps: Option<RagDeps>, query: string, apiKey: string, embed: DataPipeline.EmbedService)
    ensures VectorSearchReply(deps, query, apiKey, embed) != []
  {
    if deps.Some? && deps.value.qdrantClient.Some? {
      var e := DataPipeline.GetGoogleEmbeddings([query], apiKey, embed);
      if e.Returned? && e.value != [] {
        var hits := VectorStore.SearchVectors(e.value[0], VectorStore.RagTopK, deps.value.qdrantClient.value.search);
        if hits != [] && DocumentBlocks(hits) != [] {
          DocumentBlocksNonEmpty(hits);
          JoinStartsWithFirst(DocumentBlocks(hits), BlockSeparator);
        }
      }
    }
  }

  /**
   * The error replies: a missing client is reported before anything else is tried, and a
   * missing API key surfaces as the unexpected-error reply carrying the ValueError's text.
   */
  lemma VectorReplyErrors(deps: Option<RagDeps>, query: string, apiKey: string, embed: DataPipeline.EmbedService, other: DataPipeline.EmbedService)
    ensures (deps.None? || deps.value.qdrantClient.None?) ==>
      VectorSearchReply(deps, query, apiKey, embed) == VectorSearchReply(deps, query, apiKey, other) == MissingClientReply
    ensures deps.Some? && deps.value.qdrantClient.Some? && apiKey == "" ==>
      VectorSearchReply(deps, query, apiKey, embed) == VectorErrorPrefix + DataPipeline.MissingKeyMessage
  {
  }

  /**
   * A failing Qdrant search is not reported as an error: `search_vectors` swallows it, so
   * the tool answers as if the knowledge base held nothing relevant.
   */
  lemma SearchFailureReadsAsNoDocuments(client: QdrantClient, query: string, apiKey: string, v: Vector, rest: seq<Vector>, e: Exception)
    requires apiKey != ""
    requires v != [] && client.search(v, VectorStore.RagTopK) == VectorStore.SearchFails(e)
    ensures VectorSearchReply(Some(RagDeps(Some(client))), query, apiKey, DataPipeline.Embeds([v] + rest)) == NoDocumentsReply
  {
  }

  /**
   * The successful reply: when the search returns hits all of which carry content, the
   * reply is their blocks joined by the separator, one per hit in the order Qdrant ranked them.
   */
  lemma VectorReplyWithContent(client: QdrantClient, query: string, apiKey: string, v: Vector, rest: seq<Vector>)
    requires apiKey != "" && v != []
    requires client.search(v, VectorStore.RagTopK).SearchReturns?
    requires var hits := client.search(v, VectorStore.RagTopK).hits;
      hits != [] && forall k :: 0 <= k < |hits| ==> HasContent(hits[k])
    ensures var hits := client.search(v, VectorStore.RagTopK).hits;
      && |DocumentBlocks(hits)| == |hits|
      && (forall k :: 0 <= k < |hits| ==> DocumentBlocks(hits)[k] == DocumentBlock(k, hits[k]))
      && VectorSearchReply(Some(RagDeps(Some(client))), query, apiKey, DataPipeline.Embeds([v] + rest))
         == Join(DocumentBlocks(hits), BlockSeparator)
  {
    var hits := client.search(v, VectorStore.RagTopK).hits;
    AllContentBlocks(hits);
    assert DataPipeline.GetGoogleEmbeddings([query], apiKey, DataPipeline.Embeds([v] + rest)) == Returned([v] + rest);
    assert VectorStore.SearchVectors(([v] + rest)[0], VectorStore.RagTopK, client.search) == hits;
    assert DocumentBlocks(hits) != [] by { assert |DocumentBlocks(hits)| == |hits|; }
  }

  // ---------------------------------------------------------------- web_search_tool

  /** What `DDGS(timeout=20).text(query, max_results)` does: raise, or return result dictionaries. */
  datatype WebService = WebFails(error: Exception) | WebReturns(results: seq<map<string, string>>)

  /** `doc.get(key, default)`. */
  function Get(doc: map<string, string>, key: string, default: string): string
  {
    if key in doc then doc[key] else default
  }

  /** `Result {i+1}: {title}\nURL: {url}\nSnippet: {body}`, with the defaults for missing keys. */
  function WebBlock(i: nat, doc: map<string, string>): string
  {
    "Result " + Decimal(i + 1) + ": " + Get(doc, "title", "No Title") +
    "\nURL: " + Get(doc, "href", "No URL") +
    "\nSnippet: " + Get(doc, "body", "No snippet available.")
  }

  /**
   * A result's block shows its own title, URL and snippet, and a key the result lacks is
   * shown as "No Title", "No URL" or "No snippet available.".
   */
  lemma WebBlockFields(i: nat, doc: map<string, string>)
    ensures var title := if "title" in doc then doc["title"] else "No Title";
      var url := if "href" in doc then doc["href"] else "No URL";
      var body := if "body" in doc then doc["body"] else "No snippet available.";
      WebBlock(i, doc) == "Result " + Decimal(i + 1) + ": " + title + "\nURL: " + url + "\nSnippet: " + body
    ensures "title" !in doc && "href" !in doc && "body" !in doc ==>
      WebBlock(i, doc) == "Result " + Decimal(i + 1) + ": " + "No Title" + "\nURL: " + "No URL" + "\nSnippet: " + "No snippet available."
  {
    assert Get(doc, "title", "No Title") == if "title" in doc then doc["title"] else "No Title";
    assert Get(doc, "href", "No URL") == if "href" in doc then doc["href"] else "No URL";
    assert Get(doc, "body", "No snippet available.") == if "body" in doc then doc["body"] else "No snippet available.";
  }

  /** One block per result, in order. */
  function WebBlocks(results: seq<map<string, string>>): seq<string>
  {
    if results == [] then []
    else
      var i := |results| - 1;
      WebBlocks(results[..i]) + [WebBlock(i, results[i])]
  }

  /** No result is dropped: block k is result k's, numbered k+1. */
  lemma {:induction false} WebBlocksNumbered(results: seq<map<string, string>>)
    ensures |WebBlocks(results)| == |results|
    ensures forall k :: 0 <= k < |results| ==> WebBlocks(results)[k] == WebBlock(k, results[k])
  {
    if results != [] {
      var i := |results| - 1;
      var init := results[..i];
      WebBlocksNumbered(init);
      var before := WebBlocks(init);
      assert WebBlocks(results) == before + [WebBlock(i, results[i])];
      forall k | 0 <= k < i ensures WebBlocks(results)[k] == WebBlock(k, results[k]) {
        assert init[k] == results[k];
      }
    }
  }

  /** What `web_search_tool(ctx, query)` returns, given the search engine's behaviour for a query and a result limit. */
  function WebSearchReply(query: string, search: (string, nat) -> WebService): string
  {
    match search(query, WebSearchMaxResults)
    case WebFails(e) => WebErrorPrefix + e.message
    case WebReturns(results) =>
      if results == [] then NoWebResultsReply else Join(WebBlocks(results), BlockSeparator)
  }

  /** `web_search_tool`: search, then build one block per result. */
  method WebSearchTool(query: string, search: (string, nat) -> WebService) returns (r: string)
    ensures r == WebSearchReply(query, search)
  {
    var answer := search(query, WebSearchMaxResults);
    if answer.WebFails? {
      return WebErrorPrefix + answer.error.message;
    }
    var results := answer.results;
    if results == [] {
      return NoWebResultsReply;
    }
    var contextPieces: seq<string> := [];
    for i := 0 to |results|
      invariant contextPieces == WebBlocks(results[..i])
    {
      var doc := results[i];
      var title := Get(doc, "title", "No Title");
      var body := Get(doc, "body", "No snippet available.");
      var url := Get(doc, "href", "No URL");
      var piece := "Result " + Decimal(i + 1) + ": " + title + "\nURL: " + url + "\nSnippet: " + body;
      contextPieces := contextPieces + [piece];
      assert results[..i + 1][..i] == results[..i];
    }
    assert results[..|results|] == results;
    r := Join(contextPieces, BlockSeparator);
  }

  /**
   * The web reply is never empty: a failing search gives the error reply, no results give
   * the no-results reply, and otherwise it is one block per result, in order, joined by the
   * separator.
   */
  lemma WebReplyShape(query: string, search: (string, nat) -> WebService)
    ensures WebSearchReply(query, search) != []
    ensures search(query, WebSearchMaxResults).WebFails? ==>
      WebSearchReply(query, search) == WebErrorPrefix + search(query, WebSearchMaxResults).error.message
    ensures search(query, WebSearchMaxResults).WebReturns? && search(query, WebSearchMaxResults).results == [] ==>
      WebSearchReply(query, search) == NoWebResultsReply
    ensures search(query, WebSearchMaxResults).WebReturns? && search(query, WebSearchMaxResults).results != [] ==>
      var results := search(query, WebSearchMaxResults).results;
      && WebSearchReply(query, search) == Join(WebBlocks(results), BlockSeparator)
      && |WebBlocks(results)| == |results|
      && (forall k :: 0 <= k < |results| ==> WebBlocks(results)[k] == WebBlock(k, results[k]))
  {
    if search(query, WebSearchMaxResults).WebReturns? && search(query, WebSearchMaxResults).results != [] {
      var results := search(query, WebSearchMaxResults).results;
      WebBlocksNumbered(results);
      JoinStartsWithFirst(WebBlocks(results), BlockSeparator);
    }
  }
}
