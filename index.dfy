/** The vector index as the document service uses it: a map from point id to
    (vector, payload), the writes the service issues, and the shapes of the
    index's answers. Ranking, scoring and scroll order belong to the index and
    are inputs here. */
module Index {
  import opened Values
  import opened Embedding
  import opened Filters

  datatype Record = Record(vector: Vector, payload: Payload)

  /** The collection: one record per point id. */
  type Store = map<Id, Record>

  /** `PointStruct(id=..., vector=..., payload=...)`. */
  datatype PointStruct = PointStruct(id: Id, record: Record)

  /** A search hit: point id, similarity score and payload. */
  datatype Hit = Hit(id: Id, score: real, payload: Payload)

  /** A point returned by `scroll` with its payload. */
  datatype Point = Point(id: Id, payload: Payload)

  /** The arguments of `client.search`. */
  datatype SearchRequest = SearchRequest(vector: Vector, filter: Option<Filter>, limit: int, threshold: real)

  /** The arguments of `client.scroll`. */
  datatype ScrollRequest = ScrollRequest(limit: int, offset: Option<int>)

  function Ids(points: seq<PointStruct>): seq<Id>
  {
    if points == [] then [] else Ids(points[..|points| - 1]) + [points[|points| - 1].id]
  }

  /** The ids of a batch, in order. */
  lemma {:induction false} IdsMeans(points: seq<PointStruct>)
    ensures |Ids(points)| == |points|
    ensures forall k :: 0 <= k < |points| ==> Ids(points)[k] == points[k].id
  {
    if points != [] {
      IdsMeans(points[..|points| - 1]);
    }
  }

  /** `upsert` of a batch of points, applied in order. */
  function UpsertAll(store: Store, points: seq<PointStruct>): Store
  {
    if points == [] then store
    else
      var last := points[|points| - 1];
      UpsertAll(store, points[..|points| - 1])[last.id := last.record]
  }

  /** After a batch upsert every point id is stored, the record under it is
      the last point in the batch with that id, and every other record is kept. */
  lemma {:induction false} UpsertAllEffect(store: Store, points: seq<PointStruct>)
    ensures forall id :: id in UpsertAll(store, points) <==> id in store || id in Ids(points)
    ensures forall id :: id in store && id !in Ids(points) ==> UpsertAll(store, points)[id] == store[id]
    ensures forall k :: 0 <= k < |points| && (forall j :: k < j < |points| ==> points[j].id != points[k].id)
              ==> points[k].id in UpsertAll(store, points) && UpsertAll(store, points)[points[k].id] == points[k].record
  {
    if points != [] {
      var init := points[..|points| - 1];
      UpsertAllEffect(store, init);
      forall k | 0 <= k < |init| ensures init[k] == points[k] { }
    }
  }

  /** A batch upsert of well-shaped payloads into a well-shaped store leaves
      every stored payload well-shaped. */
  lemma {:induction false} UpsertAllSchema(store: Store, points: seq<PointStruct>)
    requires forall id :: id in store ==> Schema(store[id].payload)
    requires forall k :: 0 <= k < |points| ==> Schema(points[k].record.payload)
    ensures forall id :: id in UpsertAll(store, points) ==> Schema(UpsertAll(store, points)[id].payload)
  {
    if points != [] {
      UpsertAllSchema(store, points[..|points| - 1]);
    }
  }

  /** A batch upsert of payloads naming no foreign id into a store whose
      payloads name no foreign id keeps that so. */
  lemma {:induction false} UpsertAllOwnIds(store: Store, points: seq<PointStruct>)
    requires forall id :: id in store ==> OwnId(id, store[id].payload)
    requires forall k :: 0 <= k < |points| ==> OwnId(points[k].id, points[k].record.payload)
    ensures forall id :: id in UpsertAll(store, points) ==> OwnId(id, UpsertAll(store, points)[id].payload)
  {
    if points != [] {
      UpsertAllOwnIds(store, points[..|points| - 1]);
    }
  }

  /** `delete` of one point id: that id is gone, every other record is kept. */
  function Remove(store: Store, id: Id): (r: Store)
    ensures id !in r
    ensures r.Keys == store.Keys - {id}
    ensures forall other :: other in r ==> r[other] == store[other]
  {
    store - {id}
  }

  /** Python's `s[:stop]`: a negative stop counts from the end. */
  function Slice<T>(s: seq<T>, stop: int): (r: seq<T>)
    ensures stop >= 0 ==> |r| == if stop < |s| then stop else |s|
    ensures stop < 0 ==> |r| == if |s| + stop > 0 then |s| + stop else 0
    ensures r == s[..|r|]
  {
    if stop >= 0 then (if stop < |s| then s[..stop] else s)
    else if |s| + stop > 0 then s[..|s| + stop] else []
  }

  /** `retrieve(ids)`: the requested ids that are stored, in request order,
      each once. */
  function Retrieved(store: Store, ids: seq<Id>): (r: seq<Id>)
    ensures forall id :: id in r <==> id in ids && id in store
    ensures forall i, j :: 0 <= i < j < |r| ==> r[i] != r[j]
  {
    if ids == [] then []
    else
      var init := ids[..|ids| - 1];
      var last := ids[|ids| - 1];
      assert ids == init + [last];
      Retrieved(store, init) + (if last in store && last !in init then [last] else [])
  }
}
