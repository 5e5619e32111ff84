/**
 * The vector-index adapter (`QdrantService` and `get_qdrant_service`) over an
 * abstract in-memory picture of the Qdrant server: the collections it holds and,
 * per collection, the points stored under each id. What the client library does
 * on the wire is not modelled; each client call that can raise takes a `fault`
 * argument (`Some(message)` when that call raises).
 */
module VectorIndex {
  import opened Wrappers

  /** An embedding: its components are opaque numbers. */
  type Vector = seq<real>

  /** A document's metadata as stored with a point (`text`, `content`, `source`, ...). */
  type Payload = map<string, string>

  /** Qdrant's distance metrics (`Distance`). */
  datatype Distance = Cosine | Euclid | Dot | Manhattan

  /** `VectorParams(size, distance)`: the configuration a collection is created with. */
  datatype VectorParams = VectorParams(size: nat, distance: Distance)

  /** `PointStruct(id, vector, payload)`: one point sent to `upsert`. */
  datatype PointStruct = PointStruct(id: nat, vector: Vector, payload: Payload)

  /** A point as the server keeps it under its id. */
  datatype StoredPoint = StoredPoint(vector: Vector, payload: Payload)

  /** The server's state: collection configurations and each collection's points. */
  datatype Store = Store(collections: map<string, VectorParams>, points: map<string, map<nat, StoredPoint>>)

  /** A hit as the client returns it from `search`; its payload may be `None`. */
  datatype ScoredPoint = ScoredPoint(score: real, payload: Option<Payload>)

  /**
   * The `"payload"` entry of a result dict: absent, present with value `None`,
   * or present with a payload map.
   */
  datatype PayloadSlot = Missing | Null | Present(fields: Payload)

  /** A result dict `{"score": ..., "payload": ...}`; an absent `"score"` key is `None`. */
  datatype HitRecord = HitRecord(score: Option<real>, payload: PayloadSlot)

  /** What a service call returned (or raised) together with the server state after it. */
  datatype Step = Step(outcome: Outcome<string>, store: Store)

  /** A client's reply to `search(collection_name, query_vector, limit)`. */
  type SearchReply = Result<seq<ScoredPoint>, string>

  /** Every collection the server knows has a point table, and no other has. */
  predicate WellFormed(s: Store) {
    s.points.Keys == s.collections.Keys
  }

  // ---------------------------------------------------------------------
  // The server's side of the client calls

  /** `create_collection(name, params)` on a collection that does not exist yet. */
  function CreateCollection(s: Store, name: string, params: VectorParams): Store {
    Store(s.collections[name := params], s.points[name := map[]])
  }

  /** Writes the points one after another; a later point with an id overwrites an earlier one. */
  function Upsert(table: map<nat, StoredPoint>, points: seq<PointStruct>): map<nat, StoredPoint>
    decreases |points|
  {
    if points == [] then table
    else Upsert(table[points[0].id := StoredPoint(points[0].vector, points[0].payload)], points[1..])
  }

  /** `upsert(name, points)`: fails when the collection does not exist. */
  function ClientUpsert(s: Store, name: string, points: seq<PointStruct>): Result<Store, string> {
    if name !in s.points then Failure("Collection " + name + " not found")
    else Success(Store(s.collections, s.points[name := Upsert(s.points[name], points)]))
  }

  // ---------------------------------------------------------------------
  // QdrantService, as functions of the server state

  /**
   * `_ensure_collection`: list the collections; create `name` with the configured
   * dimension and cosine distance only when it is not among them. A raising client
   * call leaves the state as it was and the error propagates.
   */
  function EnsureCollectionStep(s: Store, name: string, dim: nat,
                                listFault: Option<string>, createFault: Option<string>): (r: Step)
    ensures r.outcome.Pass? ==> name in r.store.collections
    ensures listFault.None? && name in s.collections ==> r == Step(Pass, s)
    ensures r.outcome.Pass? && name !in s.collections ==>
      && r.store.collections == s.collections[name := VectorParams(dim, Cosine)]
      && r.store.points == s.points[name := map[]]
    ensures listFault.Some? ==> r.outcome == Fail(listFault.value)
    ensures listFault.None? && name !in s.collections && createFault.Some? ==> r.outcome == Fail(createFault.value)
    ensures r.outcome.Fail? ==> r.store == s
    ensures listFault.None? && name !in s.collections && createFault.None? ==> r.outcome == Pass
    ensures forall other :: other != name && other in s.collections ==>
      other in r.store.collections && r.store.collections[other] == s.collections[other]
    ensures forall other :: other != name && other in s.points ==>
      other in r.store.points && r.store.points[other] == s.points[other]
  {
    if listFault.Some? then Step(Fail(listFault.value), s)
    else if name in s.collections then Step(Pass, s)
    else if createFault.Some? then Step(Fail(createFault.value), s)
    else Step(Pass, CreateCollection(s, name, VectorParams(dim, Cosine)))
  }

  /** The points `add_documents` builds: `enumerate(zip(documents, embeddings))`, ids from `start`. */
  function EnumeratePoints(documents: seq<Payload>, embeddings: seq<Vector>, start: nat): (points: seq<PointStruct>)
    ensures |points| == if |documents| < |embeddings| then |documents| else |embeddings|
    ensures forall i :: 0 <= i < |points| ==>
      points[i] == PointStruct(start + i, embeddings[i], documents[i])
  {
    if documents == [] || embeddings == [] then []
    else [PointStruct(start, embeddings[0], documents[0])]
         + EnumeratePoints(documents[1..], embeddings[1..], start + 1)
  }

  /** `min(len(documents), len(embeddings))`: the number of points `add_documents` sends. */
  function PointCount(documents: seq<Payload>, embeddings: seq<Vector>): nat {
    if |documents| < |embeddings| then |documents| else |embeddings|
  }

  /** `add_documents`: upsert points `0..n-1`; any client error propagates and changes nothing. */
  function AddDocumentsStep(s: Store, name: string, documents: seq<Payload>, embeddings: seq<Vector>,
                            fault: Option<string>): (r: Step)
    ensures fault.Some? ==> r.outcome == Fail(fault.value)
    ensures name !in s.points ==> r.outcome.Fail?
    ensures r.outcome.Fail? ==> r.store == s
    ensures r.outcome.Pass? ==> r.store.collections == s.collections && r.store.points.Keys == s.points.Keys
  {
    if fault.Some? then Step(Fail(fault.value), s)
    else match ClientUpsert(s, name, EnumeratePoints(documents, embeddings, 0))
      case Success(s') => Step(Pass, s')
      case Failure(e) => Step(Fail(e), s)
  }

  /** The `payload` entry `search` puts in its result dict. */
  function SlotOf(payload: Option<Payload>): PayloadSlot {
    match payload
    case None => Null
    case Some(p) => Present(p)
  }

  /** The comprehension in `search`: one `{score, payload}` dict per client hit. */
  function HitRecords(hits: seq<ScoredPoint>): (records: seq<HitRecord>)
    ensures |records| == |hits|
    ensures forall i :: 0 <= i < |hits| ==>
      records[i] == HitRecord(Some(hits[i].score), SlotOf(hits[i].payload))
  {
    if hits == [] then []
    else [HitRecord(Some(hits[0].score), SlotOf(hits[0].payload))] + HitRecords(hits[1..])
  }

  /** `search`: the client's hits copied in order, or `[]` when the client raised. */
  function SearchResults(reply: SearchReply): (records: seq<HitRecord>)
    ensures reply.Failure? ==> records == []
    ensures reply.Success? ==> records == HitRecords(reply.value)
  {
    match reply
    case Failure(_) => []
    case Success(hits) => HitRecords(hits)
  }

  // ---------------------------------------------------------------------
  // Properties

  /** Upserting points with consecutive ids from `start` stores each under its id and keeps every other id. */
  lemma {:induction false} UpsertConsecutive(table: map<nat, StoredPoint>, points: seq<PointStruct>, start: nat)
    requires forall i :: 0 <= i < |points| ==> points[i].id == start + i
    ensures forall id :: start <= id < start + |points| ==>
      id in Upsert(table, points) &&
      Upsert(table, points)[id] == StoredPoint(points[id - start].vector, points[id - start].payload)
    ensures forall id :: !(start <= id < start + |points|) ==>
      (id in Upsert(table, points) <==> id in table) && (id in table ==> Upsert(table, points)[id] == table[id])
    decreases |points|
  {
    if points != [] {
      var table' := table[start := StoredPoint(points[0].vector, points[0].payload)];
      UpsertConsecutive(table', points[1..], start + 1);
    }
  }

  /** The upsert of `add_documents` stores point `i` for `i < n` and keeps every other id. */
  lemma UpsertEnumerated(table: map<nat, StoredPoint>, documents: seq<Payload>, embeddings: seq<Vector>)
    ensures forall id: nat :: id < PointCount(documents, embeddings) ==>
      id in Upsert(table, EnumeratePoints(documents, embeddings, 0)) &&
      Upsert(table, EnumeratePoints(documents, embeddings, 0))[id] == StoredPoint(embeddings[id], documents[id])
    ensures forall id: nat :: id >= PointCount(documents, embeddings) ==>
      (id in Upsert(table, EnumeratePoints(documents, embeddings, 0)) <==> id in table) &&
      (id in table ==> Upsert(table, EnumeratePoints(documents, embeddings, 0))[id] == table[id])
  {
    var points := EnumeratePoints(documents, embeddings, 0);
    UpsertConsecutive(table, points, 0);
    forall id | 0 <= id < |points|
      ensures points[id - 0] == PointStruct(id, embeddings[id], documents[id])
    {
    }
  }

  /**
   * A successful `add_documents` leaves point `i` holding `embeddings[i]` and
   * `documents[i]` for every `i < n`, and every other point and collection untouched.
   */
  lemma AddDocumentsContents(s: Store, name: string, documents: seq<Payload>, embeddings: seq<Vector>)
    requires name in s.points
    ensures var r := AddDocumentsStep(s, name, documents, embeddings, None);
      var n := PointCount(documents, embeddings);
      && r.outcome == Pass
      && r.store.collections == s.collections
      && r.store.points.Keys == s.points.Keys
      && (forall c :: c in s.points && c != name ==> r.store.points[c] == s.points[c])
      && (forall id: nat :: id < n ==>
            id in r.store.points[name] && r.store.points[name][id] == StoredPoint(embeddings[id], documents[id]))
      && (forall id: nat :: id >= n ==>
            (id in r.store.points[name] <==> id in s.points[name]) &&
            (id in s.points[name] ==> r.store.points[name][id] == s.points[name][id]))
  {
    UpsertEnumerated(s.points[name], documents, embeddings);
  }

  /**
   * Ids restart at 0 on every call: a second `add_documents` overwrites points
   * `0..n2-1`, points the first call wrote beyond them survive, and older points
   * beyond both are untouched.
   */
  lemma AddDocumentsOverwrites(s: Store, name: string, docs1: seq<Payload>, embs1: seq<Vector>,
                               docs2: seq<Payload>, embs2: seq<Vector>)
    requires name in s.points
    ensures var s1 := AddDocumentsStep(s, name, docs1, embs1, None).store;
      var t := AddDocumentsStep(s1, name, docs2, embs2, None).store.points[name];
      var n1 := PointCount(docs1, embs1);
      var n2 := PointCount(docs2, embs2);
      && (forall id: nat :: id < n2 ==> id in t && t[id] == StoredPoint(embs2[id], docs2[id]))
      && (forall id: nat :: n2 <= id < n1 ==> id in t && t[id] == StoredPoint(embs1[id], docs1[id]))
      && (forall id: nat :: id >= n1 && id >= n2 ==>
            (id in t <==> id in s.points[name]) && (id in t ==> t[id] == s.points[name][id]))
  {
    AddDocumentsContents(s, name, docs1, embs1);
    var s1 := AddDocumentsStep(s, name, docs1, embs1, None).store;
    AddDocumentsContents(s1, name, docs2, embs2);
  }

  /** Upserting the same documents twice leaves the same state as upserting them once. */
  lemma AddDocumentsIdempotent(s: Store, name: string, documents: seq<Payload>, embeddings: seq<Vector>)
    requires name in s.points
    ensures var s1 := AddDocumentsStep(s, name, documents, embeddings, None).store;
      AddDocumentsStep(s1, name, documents, embeddings, None).store == s1
  {
    var s1 := AddDocumentsStep(s, name, documents, embeddings, None).store;
    AddDocumentsContents(s, name, documents, embeddings);
    AddDocumentsContents(s1, name, documents, embeddings);
    var s2 := AddDocumentsStep(s1, name, documents, embeddings, None).store;
    assert s2.points[name] == s1.points[name];
    assert s2.points == s1.points;
  }

  /** Calling `_ensure_collection` again after it succeeded changes nothing. */
  lemma EnsureCollectionIdempotent(s: Store, name: string, dim: nat, createFault: Option<string>)
    requires EnsureCollectionStep(s, name, dim, None, createFault).outcome.Pass?
    ensures var s1 := EnsureCollectionStep(s, name, dim, None, createFault).store;
      EnsureCollectionStep(s1, name, dim, None, createFault) == Step(Pass, s1)
  {
  }

  /** Every service step keeps the collections and their point tables in step. */
  lemma StepsPreserveWellFormed(s: Store, name: string, dim: nat, f1: Option<string>, f2: Option<string>,
                                documents: seq<Payload>, embeddings: seq<Vector>)
    requires WellFormed(s)
    ensures WellFormed(EnsureCollectionStep(s, name, dim, f1, f2).store)
    ensures WellFormed(AddDocumentsStep(s, name, documents, embeddings, f1).store)
  {
  }

  // ---------------------------------------------------------------------
  // The imperative side: the client handle, the service object and the module global

  /** The connection to the server at the configured URL; its state changes as calls succeed. */
  class QdrantClient {
    var store: Store

    constructor (initial: Store)
      ensures store == initial
    {
      store := initial;
    }
  }

  /** `QdrantService`: a client handle and the configured collection name and dimension. */
  class QdrantService {
    const client: QdrantClient
    const collectionName: string
    const dim: nat

    /** The field assignments of `__init__`; the registry runs `_ensure_collection` next. */
    constructor (client: QdrantClient, collectionName: string, dim: nat)
      ensures this.client == client && this.collectionName == collectionName && this.dim == dim
    {
      this.client := client;
      this.collectionName := collectionName;
      this.dim := dim;
    }

    /** `_ensure_collection`. */
    method EnsureCollection(listFault: Option<string>, createFault: Option<string>) returns (r: Outcome<string>)
      modifies client
      ensures Step(r, client.store) == EnsureCollectionStep(old(client.store), collectionName, dim, listFault, createFault)
    {
      if listFault.Some? {
        return Fail(listFault.value);
      }
      var collectionNames := client.store.collections.Keys;
      if collectionName !in collectionNames {
        if createFault.Some? {
          return Fail(createFault.value);
        }
        client.store := CreateCollection(client.store, collectionName, VectorParams(dim, Cosine));
      }
      r := Pass;
    }

    /**
     * `search`: asks the client about this service's collection with the given
     * vector and limit; `reply` is what the client answers to that question.
     */
    method Search(queryVector: Vector, limit: int, reply: (string, Vector, int) -> SearchReply)
      returns (results: seq<HitRecord>)
      ensures results == SearchResults(reply(collectionName, queryVector, limit))
      ensures reply(collectionName, queryVector, limit).Failure? ==> results == []
      ensures reply(collectionName, queryVector, limit).Success? ==>
        |results| == |reply(collectionName, queryVector, limit).value|
    {
      var answer := reply(collectionName, queryVector, limit);
      if answer.Failure? {
        return [];
      }
      results := HitRecords(answer.value);
    }

    /** `add_documents`. */
    method AddDocuments(documents: seq<Payload>, embeddings: seq<Vector>, fault: Option<string>)
      returns (r: Outcome<string>)
      modifies client
      ensures Step(r, client.store) == AddDocumentsStep(old(client.store), collectionName, documents, embeddings, fault)
    {
      var points := EnumeratePoints(documents, embeddings, 0);
      if fault.Some? {
        return Fail(fault.value);
      }
      var upserted := ClientUpsert(client.store, collectionName, points);
      if upserted.Failure? {
        return Fail(upserted.error);
      }
      client.store := upserted.value;
      r := Pass;
    }
  }

  /** The module global `_qdrant_service` together with the settings it is built from. */
  class ServiceRegistry {
    var qdrantService: QdrantService?
    const client: QdrantClient
    const collectionName: string
    const dim: nat

    ghost predicate Valid()
      reads this
    {
      qdrantService != null ==>
        qdrantService.client == client && qdrantService.collectionName == collectionName && qdrantService.dim == dim
    }

    constructor (client: QdrantClient, collectionName: string, dim: nat)
      ensures Valid() && qdrantService == null
      ensures this.client == client && this.collectionName == collectionName && this.dim == dim
    {
      this.client := client;
      this.collectionName := collectionName;
      this.dim := dim;
      qdrantService := null;
    }

    /**
     * `get_qdrant_service`: construct a service only when the global is `None`.
     * When `_ensure_collection` raises during construction the global stays `None`
     * and the error propagates.
     */
    method GetQdrantService(listFault: Option<string>, createFault: Option<string>)
      returns (r: Result<QdrantService, string>)
      requires Valid()
      modifies this, client
      ensures Valid()
      ensures old(qdrantService) != null ==>
        r == Success(old(qdrantService)) && qdrantService == old(qdrantService) && client.store == old(client.store)
      ensures old(qdrantService) == null ==>
        var step := EnsureCollectionStep(old(client.store), collectionName, dim, listFault, createFault);
        && client.store == step.store
        && (step.outcome.Pass? ==> r.Success? && fresh(r.value) && qdrantService == r.value)
        && (step.outcome.Fail? ==> r == Failure(step.outcome.error) && qdrantService == null)
    {
      if qdrantService == null {
        var service := new QdrantService(client, collectionName, dim);
        var ensured := service.EnsureCollection(listFault, createFault);
        if ensured.Fail? {
          return Failure(ensured.error);
        }
        qdrantService := service;
      }
      r := Success(qdrantService);
    }
  }

  /** Once one call has built the service, a later call returns that same instance. */
  method GetTwice(registry: ServiceRegistry, f1: Option<string>, f2: Option<string>,
                  g1: Option<string>, g2: Option<string>)
    returns (first: Result<QdrantService, string>, second: Result<QdrantService, string>)
    requires registry.Valid()
    modifies registry, registry.client
    ensures first.Success? ==> second == first
  {
    first := registry.GetQdrantService(f1, f2);
    second := registry.GetQdrantService(g1, g2);
  }
}
