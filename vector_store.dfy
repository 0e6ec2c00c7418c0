/**
 * vector_store.py: the gateway to the Qdrant collection. The collection the client
 * talks to is modelled as an object with a `collectionExists` flag, its vector parameters and
 * its points keyed by id; each client call that can fail is given the exception it
 * raises through `ClientFaults`. Nearest-neighbour search itself is foreign.
 */
module VectorStore {
  import opened Wrappers
  import opened Text
  import opened PyValues

  /** config.COLLECTION_NAME, config.VECTOR_SIZE, config.METRIC, config.RAG_TOP_K */
  const CollectionName: string := "agentic_rag_google"
  const VectorSize: nat := 768
  const Metric: string := "COSINE"
  const RagTopK: nat := 3

  /** qdrant's `Distance` enum. */
  datatype Distance = Cosine | Euclid | Dot | Manhattan

  /** `str(distance).upper()`: the enum value ("Cosine", ...) upper-cased, which is also the member name. */
  function DistanceName(d: Distance): string
  {
    match d
    case Cosine => "COSINE"
    case Euclid => "EUCLID"
    case Dot => "DOT"
    case Manhattan => "MANHATTAN"
  }

  predicate IsDistanceName(name: string)
  {
    name == "COSINE" || name == "EUCLID" || name == "DOT" || name == "MANHATTAN"
  }

  /** `getattr(Distance, name, Distance.COSINE)`: the member of that name, COSINE for any other name. */
  function DistanceNamed(name: string): (d: Distance)
  {
    if name == "EUCLID" then Euclid
    else if name == "DOT" then Dot
    else if name == "MANHATTAN" then Manhattan
    else Cosine
  }

  /** Looking a distance up by its own name gives it back; an unknown name falls back to COSINE. */
  lemma DistanceNameRoundTrip(d: Distance, name: string)
    ensures DistanceNamed(DistanceName(d)) == d
    ensures DistanceName(DistanceNamed(name)) == name <==> IsDistanceName(name)
    ensures !IsDistanceName(name) ==> DistanceNamed(name) == Cosine
  {
  }

  datatype VectorParams = VectorParams(size: nat, distance: Distance)

  /** The `VectorParams` a missing collection is created with, for the configured metric name. */
  function ConfiguredParams(metric: string): VectorParams
  {
    VectorParams(VectorSize, DistanceNamed(Upper(metric)))
  }

  /** What `create_collection_if_not_exists` found or did (it reports by printing). */
  datatype CollectionCheck =
    | Created
    | Matching
    | Mismatched(existingSize: nat, existingDistance: string)   // a warning only
    | Unverified                                                // get_collection raised

  /** The comparison of an existing collection's parameters with the configuration. */
  function CheckParams(existing: VectorParams, metric: string): CollectionCheck
  {
    if existing.size != VectorSize || DistanceName(existing.distance) != Upper(metric) then
      Mismatched(existing.size, DistanceName(existing.distance))
    else
      Matching
  }

  /**
   * A collection created from a metric name passes the next start-up check exactly when
   * the name (upper-cased) is a `Distance` member; with an unknown name the collection is
   * created with COSINE and every later check reports a mismatch.
   */
  lemma CreatedCollectionCheck(metric: string)
    ensures CheckParams(ConfiguredParams(metric), metric) == Matching <==> IsDistanceName(Upper(metric))
  {
    DistanceNameRoundTrip(DistanceNamed(Upper(metric)), Upper(metric));
  }

  /**
   * For a metric that names a distance, an existing collection passes the check exactly when
   * its parameters are the ones it would have been created with; any other collection is
   * reported with its actual size and distance name.
   */
  lemma MatchingMeansConfigured(existing: VectorParams, metric: string)
    requires IsDistanceName(Upper(metric))
    ensures CheckParams(existing, metric) == Matching <==> existing == ConfiguredParams(metric)
    ensures CheckParams(existing, metric) != Matching ==>
      CheckParams(existing, metric) == Mismatched(existing.size, DistanceName(existing.distance))
  {
    DistanceNameRoundTrip(existing.distance, Upper(metric));
  }

  /** With the shipped metric "COSINE" a created collection matches the configuration. */
  lemma ConfiguredMetricMatches()
    ensures ConfiguredParams(Metric).distance == Cosine
    ensures CheckParams(ConfiguredParams(Metric), Metric) == Matching
  {
    assert Upper(Metric) == "COSINE" by {
      assert forall k :: 0 <= k < 6 ==> Upper(Metric)[k] == AsciiUpper(Metric[k]);
    }
  }

  // ---------------------------------------------------------------- points

  type Payload = map<string, string>

  /** A stored point: its vector and payload, kept under its id. */
  datatype Point = Point(vector: Vector, payload: Payload)

  /** `PointStruct(id=..., vector=..., payload=...)`. */
  datatype PointStruct = PointStruct(id: int, vector: Vector, payload: Payload)

  /** A search hit; `score` is the already formatted `f"{score:.4f}"` text. */
  datatype ScoredPoint = ScoredPoint(id: int, score: string, payload: Option<Payload>)

  function Min(a: nat, b: nat): nat { if a <= b then a else b }

  /** `list(range(start, start + n))`. */
  function SequentialIds(start: int, n: nat): (ids: seq<int>)
    ensures |ids| == n
    ensures forall k :: 0 <= k < n ==> ids[k] == start + k
  {
    if n == 0 then [] else SequentialIds(start, n - 1) + [start + n - 1]
  }

  /** `zip(ids, embeddings, payloads)` turned into point structs: as long as the shortest list. */
  function Zip(ids: seq<int>, vectors: seq<Vector>, payloads: seq<Payload>): (batch: seq<PointStruct>)
    ensures |batch| == Min(Min(|ids|, |vectors|), |payloads|)
    ensures forall k :: 0 <= k < |batch| ==> batch[k] == PointStruct(ids[k], vectors[k], payloads[k])
  {
    if ids == [] || vectors == [] || payloads == [] then []
    else [PointStruct(ids[0], vectors[0], payloads[0])] + Zip(ids[1..], vectors[1..], payloads[1..])
  }

  /** Qdrant's upsert: each point of the batch, in order, creates or replaces the entry under its id. */
  function Upsert(m: map<int, Point>, batch: seq<PointStruct>): map<int, Point>
  {
    if batch == [] then m
    else
      var last := batch[|batch| - 1];
      Upsert(m, batch[..|batch| - 1])[last.id := Point(last.vector, last.payload)]
  }

  /** The ids a batch carries. */
  function BatchIds(batch: seq<PointStruct>): set<int>
  {
    set k | 0 <= k < |batch| :: batch[k].id
  }

  /** Upsert is create-or-replace: the keys afterwards are the old keys plus the batch's ids. */
  lemma {:induction false} UpsertKeys(m: map<int, Point>, batch: seq<PointStruct>)
    ensures Upsert(m, batch).Keys == m.Keys + BatchIds(batch)
  {
    if batch != [] {
      var init := batch[..|batch| - 1];
      UpsertKeys(m, init);
      assert BatchIds(batch) == BatchIds(init) + {batch[|batch| - 1].id} by {
        forall id | id in BatchIds(batch) ensures id in BatchIds(init) + {batch[|batch| - 1].id} {
          var k :| 0 <= k < |batch| && batch[k].id == id;
          if k < |init| { assert init[k] == batch[k]; }
        }
        forall id | id in BatchIds(init) ensures id in BatchIds(batch) {
          var k :| 0 <= k < |init| && init[k].id == id;
          assert batch[k] == init[k];
        }
      }
    }
  }

  /** An id the batch does not carry keeps its entry. */
  lemma {:induction false} UpsertKeeps(m: map<int, Point>, batch: seq<PointStruct>, id: int)
    requires id in m
    requires forall k :: 0 <= k < |batch| ==> batch[k].id != id
    ensures id in Upsert(m, batch) && Upsert(m, batch)[id] == m[id]
  {
    if batch != [] {
      UpsertKeeps(m, batch[..|batch| - 1], id);
    }
  }

  /** A batch point that no later point overrides ends up stored under its id. */
  lemma {:induction false} UpsertPlaces(m: map<int, Point>, batch: seq<PointStruct>, k: nat)
    requires k < |batch|
    requires forall j :: k < j < |batch| ==> batch[j].id != batch[k].id
    ensures batch[k].id in Upsert(m, batch)
    ensures Upsert(m, batch)[batch[k].id] == Point(batch[k].vector, batch[k].payload)
  {
    if k < |batch| - 1 {
      var init := batch[..|batch| - 1];
      assert init[k] == batch[k];
      UpsertPlaces(m, init, k);
    }
  }

  /**
   * Upsert is create-or-replace, all three parts at once: the keys become the old keys plus
   * the batch ids, an id outside the batch keeps its entry, and an id maps to the last
   * batch point that carries it.
   */
  lemma UpsertEffect(m: map<int, Point>, batch: seq<PointStruct>)
    ensures Upsert(m, batch).Keys == m.Keys + BatchIds(batch)
    ensures forall id :: id in m && id !in BatchIds(batch) ==> Upsert(m, batch)[id] == m[id]
    ensures forall k :: 0 <= k < |batch| && (forall j :: k < j < |batch| ==> batch[j].id != batch[k].id) ==>
      Upsert(m, batch)[batch[k].id] == Point(batch[k].vector, batch[k].payload)
  {
    UpsertKeys(m, batch);
    forall id | id in m && id !in BatchIds(batch) ensures Upsert(m, batch)[id] == m[id] {
      UpsertKeeps(m, batch, id);
    }
    forall k | 0 <= k < |batch| && (forall j :: k < j < |batch| ==> batch[j].id != batch[k].id)
      ensures Upsert(m, batch)[batch[k].id] == Point(batch[k].vector, batch[k].payload)
    {
      UpsertPlaces(m, batch, k);
    }
  }

  /** The ids lo, lo+1, ..., lo+n-1. */
  function Interval(lo: int, n: nat): (r: set<int>)
    ensures forall id :: id in r <==> lo <= id < lo + n
    ensures |r| == n
  {
    if n == 0 then {} else Interval(lo, n - 1) + {lo + n - 1}
  }

  /** The collection holds the ids 0 .. count-1 and nothing else: what sequential ingestion by one writer keeps. */
  predicate Dense(m: map<int, Point>)
  {
    m.Keys == Interval(0, |m|)
  }

  /** Zipping sequential ids numbers the batch from the first id. */
  lemma SequentialBatchIds(start: int, vectors: seq<Vector>, payloads: seq<Payload>)
    ensures var batch := Zip(SequentialIds(start, |vectors|), vectors, payloads);
      NumberedFrom(batch, start)
  {
  }

  /** The batch's points are numbered start, start+1, ... in order. */
  predicate NumberedFrom(batch: seq<PointStruct>, start: int)
  {
    forall k :: 0 <= k < |batch| ==> batch[k].id == start + k
  }

  /**
   * Ids numbered from the exact count never collide on a dense collection: the upload
   * only adds, every earlier point keeps its entry, point k of the batch lands under
   * id count + k, and the collection stays dense with the batch added.
   */
  lemma SequentialUploadAppends(m: map<int, Point>, batch: seq<PointStruct>)
    requires Dense(m) && NumberedFrom(batch, |m|)
    ensures forall id :: id in m ==> id in Upsert(m, batch) && Upsert(m, batch)[id] == m[id]
    ensures forall k :: 0 <= k < |batch| ==>
      |m| + k in Upsert(m, batch) && Upsert(m, batch)[|m| + k] == Point(batch[k].vector, batch[k].payload)
    ensures |Upsert(m, batch)| == |m| + |batch|
    ensures Dense(Upsert(m, batch))
  {
    NumberedUploadKeepsOld(m, batch);
    forall k | 0 <= k < |batch|
      ensures |m| + k in Upsert(m, batch) && Upsert(m, batch)[|m| + k] == Point(batch[k].vector, batch[k].payload)
    {
      NumberedUploadPlacesNew(m, batch, k);
    }
    NumberedUploadStaysDense(m, batch);
  }

  lemma NumberedUploadKeepsOld(m: map<int, Point>, batch: seq<PointStruct>)
    requires Dense(m) && NumberedFrom(batch, |m|)
    ensures forall id :: id in m ==> id in Upsert(m, batch) && Upsert(m, batch)[id] == m[id]
  {
    forall id | id in m ensures id in Upsert(m, batch) && Upsert(m, batch)[id] == m[id] {
      UpsertKeeps(m, batch, id);
    }
  }

  lemma NumberedUploadPlacesNew(m: map<int, Point>, batch: seq<PointStruct>, k: nat)
    requires NumberedFrom(batch, |m|) && k < |batch|
    ensures |m| + k in Upsert(m, batch) && Upsert(m, batch)[|m| + k] == Point(batch[k].vector, batch[k].payload)
  {
    UpsertPlaces(m, batch, k);
  }

  lemma NumberedUploadStaysDense(m: map<int, Point>, batch: seq<PointStruct>)
    requires Dense(m) && NumberedFrom(batch, |m|)
    ensures |Upsert(m, batch)| == |m| + |batch| && Dense(Upsert(m, batch))
  {
    var m' := Upsert(m, batch);
    var n := |m| + |batch|;
    UpsertKeys(m, batch);
    NumberedIds(batch, |m|);
    IntervalSplit(0, |m|, |batch|);
    assert m'.Keys == Interval(0, |m|) + Interval(|m|, |batch|);
    DenseWithKeys(m', n);
  }

  /** A map whose keys are exactly 0 .. n-1 has n entries and is dense. */
  lemma DenseWithKeys(m: map<int, Point>, n: nat)
    requires m.Keys == Interval(0, n)
    ensures |m| == n && Dense(m)
  {
    assert |m.Keys| == n;
  }

  lemma NumberedIds(batch: seq<PointStruct>, start: int)
    requires NumberedFrom(batch, start)
    ensures BatchIds(batch) == Interval(start, |batch|)
  {
    forall id | start <= id < start + |batch| ensures id in BatchIds(batch) {
      assert batch[id - start].id == id;
    }
  }

  lemma IntervalSplit(lo: int, a: nat, b: nat)
    ensures Interval(lo, a) + Interval(lo + a, b) == Interval(lo, a + b)
  {
  }

  /**
   * The fallback start id 0 (taken when the count fails) reuses the ids of what is already
   * stored: on a non-empty dense collection the first point of the batch replaces point 0.
   */
  lemma CountFallbackOverwrites(m: map<int, Point>, vectors: seq<Vector>, payloads: seq<Payload>)
    requires Dense(m) && |m| > 0 && vectors != [] && payloads != []
    ensures var m' := Upsert(m, Zip(SequentialIds(0, |vectors|), vectors, payloads));
      0 in m && 0 in m' && m'[0] == Point(vectors[0], payloads[0])
  {
    var batch := Zip(SequentialIds(0, |vectors|), vectors, payloads);
    SequentialBatchIds(0, vectors, payloads);
    UpsertPlaces(m, batch, 0);
  }

  // ---------------------------------------------------------------- the collection

  /** The exception each client call raises, or None when it succeeds. */
  datatype ClientFaults = ClientFaults(
    existsCheck: Option<Exception>,   // client.collection_exists
    create: Option<Exception>,        // client.create_collection
    info: Option<Exception>,          // client.get_collection
    count: Option<Exception>,         // client.count (also raises when the collection is absent)
    upsert: Option<Exception>)        // client.upsert (also raises when the collection is absent)

  /** Qdrant's answer to a count or an upsert on a collection that does not exist. */
  const MissingCollection: Exception :=
    Exception(UnexpectedResponse, "Not found: Collection `agentic_rag_google` doesn't exist!")

  /** `f"ID list length ({len(ids)}) != vector list length ({num_vectors})."` */
  function IdLengthMessage(given: nat, expected: nat): string
  {
    "ID list length (" + Decimal(given) + ") != vector list length (" + Decimal(expected) + ")."
  }

  /** What `upload_embeddings` did when it returned normally. */
  datatype UploadResult = NothingToUpload | Upserted(count: nat)

  /** The ids `upload_embeddings` uses: the given ones, or `count, count+1, ...` (from 0 when counting failed). */
  function AssignedIds(ids: Option<seq<int>>, count: Outcome<nat>, n: nat): seq<int>
  {
    match ids
    case Some(given) => given
    case None => SequentialIds(if count.Returned? then count.value else 0, n)
  }

  /**
   * The "no points were prepared" guard of `upload_embeddings` never fires: once the
   * empty-input and id-length guards pass, the batch has at least one point.
   */
  lemma PreparedBatchNonEmpty(vectors: seq<Vector>, payloads: seq<Payload>, ids: Option<seq<int>>, count: Outcome<nat>)
    requires vectors != [] && payloads != []
    requires ids.Some? ==> |ids.value| == |vectors|
    ensures |Zip(AssignedIds(ids, count, |vectors|), vectors, payloads)| > 0
  {
  }

  class Collection {
    var collectionExists: bool
    var params: VectorParams
    var points: map<int, Point>

    /** A collection that does not exist holds no points. */
    ghost predicate Valid()
      reads this
    {
      !collectionExists ==> points == map[]
    }

    constructor (collectionExists: bool, params: VectorParams, points: map<int, Point>)
      requires !collectionExists ==> points == map[]
      ensures Valid()
      ensures this.collectionExists == collectionExists && this.params == params && this.points == points
    {
      this.collectionExists := collectionExists;
      this.params := params;
      this.points := points;
    }

    /** `client.count(collection_name=..., exact=True).count`. */
    function ExactCount(faults: ClientFaults): Outcome<nat>
      reads this
    {
      if !collectionExists then Raised(MissingCollection)
      else if faults.count.Some? then Raised(faults.count.value)
      else Returned(|points|)
    }

    /**
     * `create_collection_if_not_exists(client)`: an absent collection is created with
     * VECTOR_SIZE and the configured metric; an existing one is never recreated or
     * altered, and a parameter mismatch is only reported. Errors of the existence check
     * and of the creation are re-raised.
     */
    method CreateIfNotExists(metric: string, faults: ClientFaults) returns (r: Outcome<CollectionCheck>)
      requires Valid()
      modifies this`collectionExists, this`params
      ensures Valid()
      ensures old(collectionExists) ==> collectionExists && params == old(params)
      ensures faults.existsCheck.Some? ==> r == Raised(faults.existsCheck.value) && !Changed()
      ensures faults.existsCheck.None? && !old(collectionExists) ==>
        if faults.create.Some? then r == Raised(faults.create.value) && !Changed()
        else r == Returned(Created) && collectionExists && params == ConfiguredParams(metric)
      ensures faults.existsCheck.None? && old(collectionExists) ==>
        r == Returned(if faults.info.Some? then Unverified else CheckParams(old(params), metric))
    {
      if faults.existsCheck.Some? {
        return Raised(faults.existsCheck.value);
      }
      if !collectionExists {
        if faults.create.Some? {
          return Raised(faults.create.value);
        }
        collectionExists := true;
        params := ConfiguredParams(metric);
        r := Returned(Created);
      } else if faults.info.Some? {
        r := Returned(Unverified);
      } else {
        r := Returned(CheckParams(params, metric));
      }
    }

    twostate predicate Changed()
      reads this
    {
      collectionExists != old(collectionExists) || params != old(params)
    }

    /**
     * `upload_embeddings(client, embeddings, payloads, ids)`: skips empty input, rejects
     * a provided id list of the wrong length, and otherwise upserts the zip of ids,
     * vectors and payloads. Without ids they run from the exact count (0 when counting
     * fails). The payload count is never checked against the vector count.
     */
    method UploadEmbeddings(embeddings: seq<Vector>, payloads: seq<Payload>, ids: Option<seq<int>>, faults: ClientFaults)
      returns (r: Outcome<UploadResult>)
      requires Valid()
      modifies this`points
      ensures Valid()
      ensures (embeddings == [] || payloads == []) ==> r == Returned(NothingToUpload) && points == old(points)
      ensures embeddings != [] && payloads != [] && ids.Some? && |ids.value| != |embeddings| ==>
        r == Raised(Exception(ValueError, IdLengthMessage(|ids.value|, |embeddings|))) && points == old(points)
      ensures embeddings != [] && payloads != [] && (ids.None? || |ids.value| == |embeddings|) ==>
        var batch := Zip(AssignedIds(ids, old(ExactCount(faults)), |embeddings|), embeddings, payloads);
        if !collectionExists then r == Raised(MissingCollection) && points == old(points)
        else if faults.upsert.Some? then r == Raised(faults.upsert.value) && points == old(points)
        else r == Returned(Upserted(|batch|)) && |batch| > 0 && points == Upsert(old(points), batch)
    {
      if embeddings == [] || payloads == [] {
        return Returned(NothingToUpload);
      }
      var numVectors := |embeddings|;
      var useIds: seq<int>;
      if ids.None? {
        var startId: int;
        var count := ExactCount(faults);
        if count.Returned? {
          startId := count.value;
        } else {
          startId := 0;
        }
        useIds := SequentialIds(startId, numVectors);
      } else if |ids.value| != numVectors {
        return Raised(Exception(ValueError, IdLengthMessage(|ids.value|, numVectors)));
      } else {
        useIds := ids.value;
      }
      var batch := Zip(useIds, embeddings, payloads);
      PreparedBatchNonEmpty(embeddings, payloads, ids, ExactCount(faults));
      if !collectionExists {
        return Raised(MissingCollection);
      }
      if faults.upsert.Some? {
        return Raised(faults.upsert.value);
      }
      points := Upsert(points, batch);
      r := Returned(Upserted(|batch|));
    }
  }

  // ---------------------------------------------------------------- search_vectors

  /** What `client.search(..., query_vector, limit)` does: raise, or return its hits. */
  datatype SearchService = SearchFails(error: Exception) | SearchReturns(hits: seq<ScoredPoint>)

  /**
   * `search_vectors(client, query_embedding, top_k)`: an empty query returns [] without
   * searching, and any search error is swallowed into [].
   */
  function SearchVectors(queryEmbedding: Vector, topK: nat, search: (Vector, nat) -> SearchService): seq<ScoredPoint>
  {
    if queryEmbedding == [] then []
    else match search(queryEmbedding, topK)
      case SearchFails(_) => []
      case SearchReturns(hits) => hits
  }

  /** An empty query embedding yields no hits whatever the search service would have answered. */
  lemma EmptyQueryIsNotSearched(topK: nat, search: (Vector, nat) -> SearchService, other: (Vector, nat) -> SearchService)
    ensures SearchVectors([], topK, search) == SearchVectors([], topK, other) == []
  {
  }
}
