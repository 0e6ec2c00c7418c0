// The ingestion script: fetch a page through the Jina reader, clean and split it, embed
// the chunks, and store them in the Qdrant collection. Each stage can abort the run, and
// the store is only touched once every earlier stage has succeeded.
module IngestData {
  import opened Wrappers
  import opened PyValues
  import opened Text
  import DataPipeline
  import VectorStore

  /** How a run of `ingest(url)` ended; every abort is a plain return in the script. */
  datatype IngestOutcome =
    | FetchFailed                                   // no content (None or "")
    | NoChunks                                      // the splitter produced nothing
    | MissingApiKey                                 // GOOGLE_API_KEY unset
    | EmbeddingFailed(message: string)              // get_google_embeddings raised
    | EmbeddingMismatch(expected: nat, got: nat)    // no embeddings, or not one per chunk
    | StoreFailed(error: Exception)                 // client setup, collection check or upload raised
    | Ingested(finalCount: Option<nat>)             // uploaded; the final count, when it could be read

  /** Whatever gets past the first three stages, or where they stop. */
  datatype Plan = Abort(outcome: IngestOutcome) | Ready(chunks: seq<string>, embeddings: seq<Vector>)

  /** The failures of the storage stage: the client constructor, the collection calls, the final count. */
  datatype StoreFaults = StoreFaults(connect: Option<Exception>, client: VectorStore.ClientFaults, finalCount: Option<Exception>)

  /** `split_text(content)`: the text is cleaned first, then cut by the (foreign) splitter. */
  function SplitText(content: string, splitter: string -> seq<string>): seq<string>
  {
    splitter(DataPipeline.CleanText(DataPipeline.Str(content)))
  }

  /** `fetch_url_content(url)`: the reader service is asked for the Jina reader URL of the page. */
  function FetchUrlContent(url: string, fetch: string -> Option<string>): Option<string>
  {
    fetch(DataPipeline.ReaderUrl(DataPipeline.JinaReaderPrefixUrl, url))
  }

  /**
   * Stages 1 to 3 of `ingest`, given what the fetch returned: no content, split, embed,
   * each stopping the run on failure.
   */
  function IngestPlan(content: Option<string>, splitter: string -> seq<string>,
                      apiKey: string, service: DataPipeline.EmbedService): Plan
  {
    if content.None? || content.value == [] then Abort(FetchFailed)
    else ChunkPlan(SplitText(content.value, splitter), apiKey, service)
  }

  /** Stages 2 and 3 once the page is split: no chunks, no key, or what the embedding call gives. */
  function ChunkPlan(chunks: seq<string>, apiKey: string, service: DataPipeline.EmbedService): Plan
  {
    if chunks == [] then Abort(NoChunks)
    else if apiKey == [] then Abort(MissingApiKey)
    else match DataPipeline.GetGoogleEmbeddings(chunks, apiKey, service)
      case Raised(e) => Abort(EmbeddingFailed(e.message))
      case Returned(embeddings) =>
        if embeddings == [] || |embeddings| != |chunks| then Abort(EmbeddingMismatch(|chunks|, |embeddings|))
        else Ready(chunks, embeddings)
  }

  /**
   * Split text goes on to the store exactly when there are chunks, the key is set, and the
   * embedding service answers one vector per chunk; those chunks and vectors are what is stored.
   */
  lemma ChunkGate(chunks: seq<string>, apiKey: string, service: DataPipeline.EmbedService)
    ensures ChunkPlan(chunks, apiKey, service).Ready? <==>
      chunks != [] && apiKey != [] && service.Embeds? && |service.vectors| == |chunks|
    ensures ChunkPlan(chunks, apiKey, service).Ready? ==>
      ChunkPlan(chunks, apiKey, service) == Ready(chunks, service.vectors)
  {
    if chunks != [] && apiKey != [] {
      if service.Embeds? {
        assert DataPipeline.GetGoogleEmbeddings(chunks, apiKey, service) == Returned(service.vectors);
      } else {
        assert DataPipeline.GetGoogleEmbeddings(chunks, apiKey, service).Raised?;
      }
    }
  }

  /**
   * The gate: the run reaches the store exactly when the page has content, the splitter
   * yields chunks, the key is set, and the embedding service answers one vector per chunk.
   */
  lemma IngestGate(content: Option<string>, splitter: string -> seq<string>,
                   apiKey: string, service: DataPipeline.EmbedService)
    ensures var plan := IngestPlan(content, splitter, apiKey, service);
      plan.Ready? <==>
        && content.Some? && content.value != []
        && SplitText(content.value, splitter) != []
        && apiKey != []
        && service.Embeds? && |service.vectors| == |SplitText(content.value, splitter)|
    ensures var plan := IngestPlan(content, splitter, apiKey, service);
      plan.Ready? ==>
        && plan.chunks == SplitText(content.value, splitter)
        && plan.embeddings == service.vectors
        && |plan.embeddings| == |plan.chunks| > 0
  {
    if content.Some? && content.value != [] {
      ChunkGate(SplitText(content.value, splitter), apiKey, service);
    }
  }

  /**
   * The stages run in order: an empty page stops the run whatever the splitter, the key and
   * the embedding service would have done, and a missing key stops it whatever the service does.
   */
  lemma IngestStageOrder(content: Option<string>, splitter: string -> seq<string>, splitter': string -> seq<string>,
                         apiKey: string, apiKey': string, service: DataPipeline.EmbedService, service': DataPipeline.EmbedService)
    requires content.None? || content.value == []
    ensures IngestPlan(content, splitter, apiKey, service) == IngestPlan(content, splitter', apiKey', service') == Abort(FetchFailed)
  {
  }

  lemma MissingKeyStopsBeforeEmbedding(content: Option<string>, splitter: string -> seq<string>,
                                       service: DataPipeline.EmbedService, service': DataPipeline.EmbedService)
    requires content.Some? && content.value != []
    requires SplitText(content.value, splitter) != []
    ensures IngestPlan(content, splitter, "", service) == IngestPlan(content, splitter, "", service') == Abort(MissingApiKey)
  {
  }

  /** `[{"url_source": url, "content": chunk} for chunk in chunks]`. */
  function Payloads(url: string, chunks: seq<string>): seq<VectorStore.Payload>
  {
    seq(|chunks|, k requires 0 <= k < |chunks| => map["url_source" := url, "content" := chunks[k]])
  }

  /** The id the first new point gets: the exact count, or 0 when counting fails. */
  function StartId(count: Option<Exception>, points: map<int, VectorStore.Point>): nat
  {
    if count.None? then |points| else 0
  }

  /**
   * The start id is the one `upload_embeddings` assigns when given no ids: the exact count,
   * or 0 when counting fails (an absent collection holds no points, so both give 0 there).
   */
  lemma StartIdIsAssigned(store: VectorStore.Collection, faults: VectorStore.ClientFaults, n: nat)
    requires store.Valid()
    ensures VectorStore.SequentialIds(StartId(faults.count, store.points), n)
         == VectorStore.AssignedIds(None, store.ExactCount(faults), n)
  {
  }

  /**
   * What step 5 of `ingest` leaves behind when it is given chunks and their embeddings:
   * each failure of the client setup, the collection check or the upload is reported and
   * stops the run there; otherwise the collection exists (created with the configured
   * parameters if it was absent) and chunk k is stored under id start + k.
   */
  twostate predicate Stored(url: string, chunks: seq<string>, embeddings: seq<Vector>,
                            store: VectorStore.Collection, faults: StoreFaults, r: IngestOutcome)
    reads store
  {
    if faults.connect.Some? then r == StoreFailed(faults.connect.value) && unchanged(store)
    else if faults.client.existsCheck.Some? then r == StoreFailed(faults.client.existsCheck.value) && unchanged(store)
    else if !old(store.collectionExists) && faults.client.create.Some? then r == StoreFailed(faults.client.create.value) && unchanged(store)
    else
      && store.collectionExists
      && (!old(store.collectionExists) ==> store.params == VectorStore.ConfiguredParams(VectorStore.Metric))
      && if faults.client.upsert.Some? then r == StoreFailed(faults.client.upsert.value) && store.points == old(store.points)
         else
           var start := StartId(faults.client.count, old(store.points));
           && store.points == VectorStore.Upsert(old(store.points),
                VectorStore.Zip(VectorStore.SequentialIds(start, |chunks|), embeddings, Payloads(url, chunks)))
           && r == Ingested(if faults.finalCount.None? then Some(|store.points|) else None)
  }

  /** Step 5 of `ingest`: connect, make sure the collection exists, upload with generated ids, read the final count. */
  method StoreChunks(url: string, chunks: seq<string>, embeddings: seq<Vector>, store: VectorStore.Collection, faults: StoreFaults)
    returns (r: IngestOutcome)
    requires store.Valid()
    requires |embeddings| == |chunks| > 0
    modifies store`collectionExists, store`params, store`points
    ensures store.Valid()
    ensures old(store.collectionExists) ==> store.collectionExists && store.params == old(store.params)
    ensures Stored(url, chunks, embeddings, store, faults, r)
  {
    // 4. payloads; the ids are left to upload_embeddings
    var payloads := Payloads(url, chunks);
    var ids: Option<seq<int>> := None;
    if faults.connect.Some? {
      return StoreFailed(faults.connect.value);
    }
    ghost var before := store.points;
    var created := store.CreateIfNotExists(VectorStore.Metric, faults.client);
    if created.Raised? {
      return StoreFailed(created.error);
    }
    assert store.points == before && (before == map[] || old(store.collectionExists));
    var uploaded := store.UploadEmbeddings(embeddings, payloads, ids, faults.client);
    if uploaded.Raised? {
      return StoreFailed(uploaded.error);
    }
    var finalCount := store.ExactCount(faults.client.(count := faults.finalCount));
    r := Ingested(if finalCount.Returned? then Some(finalCount.value) else None);
  }

  /**
   * `ingest(url)` against a collection. Aborted runs leave the store as it was; a run that
   * gets through stores its chunks as step 5 describes.
   */
  method Ingest(url: string, fetch: string -> Option<string>, splitter: string -> seq<string>, apiKey: string,
                service: DataPipeline.EmbedService, store: VectorStore.Collection, faults: StoreFaults)
    returns (r: IngestOutcome)
    requires store.Valid()
    modifies store`collectionExists, store`params, store`points
    ensures store.Valid()
    ensures var plan := IngestPlan(FetchUrlContent(url, fetch), splitter, apiKey, service);
      plan.Abort? ==> r == plan.outcome && unchanged(store)
    ensures store.points != old(store.points) ==> IngestPlan(FetchUrlContent(url, fetch), splitter, apiKey, service).Ready?
    ensures old(store.collectionExists) ==> store.collectionExists && store.params == old(store.params)
    ensures var plan := IngestPlan(FetchUrlContent(url, fetch), splitter, apiKey, service);
      plan.Ready? ==> Stored(url, plan.chunks, plan.embeddings, store, faults, r)
  {
    // 1. fetch
    var content := FetchUrlContent(url, fetch);
    if content.None? || content.value == [] {
      return FetchFailed;
    }
    // 2. split
    var textChunks := SplitText(content.value, splitter);
    if textChunks == [] {
      return NoChunks;
    }
    // 3. embed
    if apiKey == [] {
      return MissingApiKey;
    }
    var embedded := DataPipeline.GetGoogleEmbeddings(textChunks, apiKey, service);
    if embedded.Raised? {
      return EmbeddingFailed(embedded.error.message);
    }
    var embeddings := embedded.value;
    if embeddings == [] || |embeddings| != |textChunks| {
      return EmbeddingMismatch(|textChunks|, |embeddings|);
    }
    // 4 and 5
    r := StoreChunks(url, textChunks, embeddings, store, faults);
  }

  /**
   * On a dense collection (ids 0..n-1) with a working count, a successful run only appends:
   * every earlier point stays, chunk k lands under id n + k with its url and text as payload,
   * and the collection stays dense.
   */
  lemma IngestAppends(url: string, chunks: seq<string>, embeddings: seq<Vector>, points: map<int, VectorStore.Point>)
    requires VectorStore.Dense(points) && |embeddings| == |chunks|
    ensures var after := VectorStore.Upsert(points,
        VectorStore.Zip(VectorStore.SequentialIds(|points|, |chunks|), embeddings, Payloads(url, chunks)));
      forall id :: id in points ==> id in after && after[id] == points[id]
    ensures var after := VectorStore.Upsert(points,
        VectorStore.Zip(VectorStore.SequentialIds(|points|, |chunks|), embeddings, Payloads(url, chunks)));
      forall k :: 0 <= k < |chunks| ==>
        |points| + k in after && after[|points| + k] == VectorStore.Point(embeddings[k], map["url_source" := url, "content" := chunks[k]])
    ensures var after := VectorStore.Upsert(points,
        VectorStore.Zip(VectorStore.SequentialIds(|points|, |chunks|), embeddings, Payloads(url, chunks)));
      |after| == |points| + |chunks| && VectorStore.Dense(after)
  {
    var payloads := Payloads(url, chunks);
    var batch := VectorStore.Zip(VectorStore.SequentialIds(|points|, |chunks|), embeddings, payloads);
    VectorStore.SequentialBatchIds(|points|, embeddings, payloads);
    VectorStore.SequentialUploadAppends(points, batch);
    assert |batch| == |chunks|;
    forall k | 0 <= k < |chunks|
      ensures batch[k].vector == embeddings[k] && batch[k].payload == map["url_source" := url, "content" := chunks[k]]
    {
      assert batch[k] == VectorStore.PointStruct(|points| + k, embeddings[k], payloads[k]);
    }
  }

  // ---------------------------------------------------------------- the script entry point

  /**
   * The page ingested when no URL is given, "https://ai.google.dev/gemini-api/docs/models/gemini";
   * the scheme is written as its own piece so that the scheme check can see it.
   */
  const DefaultUrl: string := "https://" + "ai.google.dev/gemini-api/docs/models/gemini"

  /** `sys.argv[1] if len(sys.argv) > 1 else default_url`. */
  function ScriptUrl(argv: seq<string>): string
  {
    if |argv| > 1 then argv[1] else DefaultUrl
  }

  predicate AcceptedUrl(url: string)
  {
    StartsWith(url, "http://") || StartsWith(url, "https://")
  }

  /** Without an argument the default URL is used, and it always passes the scheme check. */
  lemma DefaultUrlAccepted(argv: seq<string>)
    requires |argv| <= 1
    ensures ScriptUrl(argv) == DefaultUrl && AcceptedUrl(ScriptUrl(argv))
  {
  }

  /** Only web URLs pass: a URL is accepted exactly when it begins with one of the two schemes. */
  lemma AcceptedUrlSchemes(url: string)
    ensures AcceptedUrl(url) <==> (|url| >= 7 && url[..7] == "http://") || (|url| >= 8 && url[..8] == "https://")
  {
  }

  datatype ScriptOutcome = InvalidUrl(url: string) | Ran(url: string, outcome: IngestOutcome)

  /** The `__main__` block: pick the URL, check its scheme, and only then run `ingest`. */
  method RunIngestScript(argv: seq<string>, fetch: string -> Option<string>, splitter: string -> seq<string>, apiKey: string,
                         service: DataPipeline.EmbedService, store: VectorStore.Collection, faults: StoreFaults)
    returns (r: ScriptOutcome)
    requires store.Valid()
    modifies store`collectionExists, store`params, store`points
    ensures store.Valid()
    ensures !AcceptedUrl(ScriptUrl(argv)) ==> r == InvalidUrl(ScriptUrl(argv)) && unchanged(store)
    ensures AcceptedUrl(ScriptUrl(argv)) ==> r.Ran? && r.url == ScriptUrl(argv)
    ensures AcceptedUrl(ScriptUrl(argv)) ==>
      var plan := IngestPlan(FetchUrlContent(ScriptUrl(argv), fetch), splitter, apiKey, service);
      && (plan.Abort? ==> r.outcome == plan.outcome && unchanged(store))
      && (plan.Ready? ==> Stored(ScriptUrl(argv), plan.chunks, plan.embeddings, store, faults, r.outcome))
    ensures store.points != old(store.points) ==>
      AcceptedUrl(ScriptUrl(argv)) && IngestPlan(FetchUrlContent(ScriptUrl(argv), fetch), splitter, apiKey, service).Ready?
  {
    var urlToIngest := ScriptUrl(argv);
    if !AcceptedUrl(urlToIngest) {
      return InvalidUrl(urlToIngest);
    }
    var outcome := Ingest(urlToIngest, fetch, splitter, apiKey, service, store, faults);
    r := Ran(urlToIngest, outcome);
  }
}
