/** The document service's own policies over payloads: what add stores, what
    get returns, how update merges and when it re-embeds, and how index hits
    are shaped into results. */
module Documents {
  import opened Values
  import opened Embedding
  import opened Filters
  import opened Index

  /** The embedding text of a document or payload whose title and content are strings. */
  function TextOf(p: Payload): string
    requires IsStr(p, "title") && IsStr(p, "content")
  {
    EmbeddingText(p["title"].s, p["content"].s)
  }

  /** The id a document is stored under: its own "id", else the generated one. */
  function IdFor(doc: Payload, freshId: Id): (id: Id)
    requires CreateShape(doc)
    ensures "id" in doc ==> Str(id) == doc["id"]
    ensures "id" !in doc ==> id == freshId
  {
    if "id" in doc then doc["id"].s else freshId
  }

  const PayloadKeys: set<string> :=
    {"title", "content", "source", "source_type", "category", "tags", "metadata", "created_at", "updated_at"}

  /** The payload written for a new document; absent optional fields become
      None, absent tags `[]` and absent metadata `{}`. */
  function DocumentPayload(doc: Payload, createdAt: Value, updatedAt: Value): (p: Payload)
    requires CreateShape(doc)
    ensures Schema(p)
    ensures p.Keys == PayloadKeys
  {
    map[
      "title" := doc["title"],
      "content" := doc["content"],
      "source" := Get(doc, "source", Null),
      "source_type" := Get(doc, "source_type", Null),
      "category" := Get(doc, "category", Null),
      "tags" := Get(doc, "tags", Strs([])),
      "metadata" := Get(doc, "metadata", Obj(map[])),
      "created_at" := createdAt,
      "updated_at" := updatedAt
    ]
  }

  /** A new payload has exactly the nine payload keys and copies the
      document's fields: title and content as given, source, source_type and
      category defaulting to None, tags to `[]` and metadata to `{}`. */
  predicate CopiesDocument(doc: Payload, p: Payload)
    requires CreateShape(doc)
  {
    && p.Keys == PayloadKeys
    && p["title"] == doc["title"] && p["content"] == doc["content"]
    && p["source"] == Get(doc, "source", Null)
    && p["source_type"] == Get(doc, "source_type", Null)
    && p["category"] == Get(doc, "category", Null)
    && p["tags"] == Get(doc, "tags", Strs([]))
    && p["metadata"] == Get(doc, "metadata", Obj(map[]))
  }

  /** Every new payload copies the document's fields. */
  lemma PayloadCopies(doc: Payload, createdAt: Value, updatedAt: Value)
    requires CreateShape(doc)
    ensures CopiesDocument(doc, DocumentPayload(doc, createdAt, updatedAt))
  {
  }

  /** add_document keeps a caller-supplied created_at and updated_at. */
  function AddPayload(doc: Payload, now: string): Payload
    requires CreateShape(doc)
  {
    DocumentPayload(doc, Get(doc, "created_at", Str(now)), Get(doc, "updated_at", Null))
  }

  /** add_documents_bulk always stamps the current time and no update. */
  function BulkPayload(doc: Payload, now: string): Payload
    requires CreateShape(doc)
  {
    DocumentPayload(doc, Str(now), Null)
  }

  /** The points add_documents_bulk upserts: the k-th document under its id,
      with the embedding of its text and a payload stamped at the k-th clock
      reading. */
  function BulkPoints(embed: string -> Vector, docs: seq<Payload>, freshIds: seq<Id>, nows: seq<string>)
    : seq<PointStruct>
    requires |freshIds| == |docs| && |nows| == |docs|
    requires forall k :: 0 <= k < |docs| ==> CreateShape(docs[k])
  {
    seq(|docs|, k requires 0 <= k < |docs| =>
      PointStruct(IdFor(docs[k], freshIds[k]), Record(embed(TextOf(docs[k])), BulkPayload(docs[k], nows[k]))))
  }

  /** One point per document, under the document's id, embedded from its text,
      with a well-shaped payload created at its own clock reading and never updated. */
  lemma BulkPointsShape(embed: string -> Vector, docs: seq<Payload>, freshIds: seq<Id>, nows: seq<string>)
    requires |freshIds| == |docs| && |nows| == |docs|
    requires forall k :: 0 <= k < |docs| ==> CreateShape(docs[k])
    ensures var points := BulkPoints(embed, docs, freshIds, nows);
            && |points| == |docs|
            && forall k :: 0 <= k < |docs| ==>
                 && points[k].id == IdFor(docs[k], freshIds[k])
                 && points[k].record.vector == embed(TextOf(docs[k]))
                 && Schema(points[k].record.payload)
                 && CopiesDocument(docs[k], points[k].record.payload)
                 && points[k].record.payload["created_at"] == Str(nows[k])
                 && points[k].record.payload["updated_at"] == Null
  {
    var points := BulkPoints(embed, docs, freshIds, nows);
    forall k | 0 <= k < |docs|
      ensures CopiesDocument(docs[k], points[k].record.payload)
    {
      assert points[k].record.payload == BulkPayload(docs[k], nows[k]);
      PayloadCopies(docs[k], Str(nows[k]), Null);
    }
  }

  /** The bulk upsert keeps every stored payload well-shaped when all were,
      and naming no foreign id when none did before. */
  lemma BulkUpsertKeepsShape(store: Store, points: seq<PointStruct>, embed: string -> Vector,
                             docs: seq<Payload>, freshIds: seq<Id>, nows: seq<string>)
    requires |freshIds| == |docs| && |nows| == |docs|
    requires forall k :: 0 <= k < |docs| ==> CreateShape(docs[k])
    requires points == BulkPoints(embed, docs, freshIds, nows)
    ensures (forall id :: id in store ==> Schema(store[id].payload)) ==>
              forall id :: id in UpsertAll(store, points) ==> Schema(UpsertAll(store, points)[id].payload)
    ensures (forall id :: id in store ==> OwnId(id, store[id].payload)) ==>
              forall id :: id in UpsertAll(store, points) ==> OwnId(id, UpsertAll(store, points)[id].payload)
  {
    forall k | 0 <= k < |points|
      ensures Schema(points[k].record.payload) && "id" !in points[k].record.payload
    {
      assert points[k].record.payload == BulkPayload(docs[k], nows[k]);
    }
    if forall id :: id in store ==> Schema(store[id].payload) {
      UpsertAllSchema(store, points);
    }
    if forall id :: id in store ==> OwnId(id, store[id].payload) {
      UpsertAllOwnIds(store, points);
    }
  }

  /** The dictionary get_document returns: the payload with the point id under
      "id" (a payload "id" key, written by an earlier update, takes precedence). */
  function DocOf(id: Id, p: Payload): Payload
  {
    map["id" := Str(id)] + p
  }

  /** get_document on a reachable backend. */
  function Lookup(store: Store, id: Id): (r: Option<Payload>)
    ensures r.Some? <==> id in store
    ensures r.Some? ==> r.value.Keys == store[id].payload.Keys + {"id"}
    ensures r.Some? ==> forall k :: k in store[id].payload ==> r.value[k] == store[id].payload[k]
    ensures r.Some? && "id" !in store[id].payload ==> r.value["id"] == Str(id)
  {
    if id in store then Some(DocOf(id, store[id].payload)) else None
  }

  /** The payload add_document stores: the document's own fields, with the
      defaults for those it leaves out. */
  lemma AddPayloadFields(doc: Payload, now: string)
    requires CreateShape(doc)
    ensures CopiesDocument(doc, AddPayload(doc, now))
    ensures AddPayload(doc, now)["created_at"] == Get(doc, "created_at", Str(now))
    ensures AddPayload(doc, now)["updated_at"] == Get(doc, "updated_at", Null)
  {
  }

  /** Adding a document and reading it back gives the stored payload's fields
      and the id the document was stored under, and nothing else. */
  lemma AddThenGet(store: Store, doc: Payload, freshId: Id, v: Vector, now: string)
    requires CreateShape(doc)
    ensures var id := IdFor(doc, freshId);
            var p := AddPayload(doc, now);
            var got := Lookup(store[id := Record(v, p)], id);
            && got.Some?
            && got.value.Keys == PayloadKeys + {"id"}
            && got.value["id"] == Str(id)
            && forall k :: k in PayloadKeys ==> got.value[k] == p[k]
  {
    var p := AddPayload(doc, now);
    assert "id" !in p;
  }

  /** `{**existing, **updates, "updated_at": now}`. */
  function Merge(existing: Payload, updates: Payload, now: string): (r: Payload)
    ensures r.Keys == existing.Keys + updates.Keys + {"updated_at"}
    ensures r["updated_at"] == Str(now)
    ensures forall k :: k in updates && k != "updated_at" ==> r[k] == updates[k]
    ensures forall k :: k in existing && k !in updates && k != "updated_at" ==> r[k] == existing[k]
  {
    existing + updates + map["updated_at" := Str(now)]
  }

  /** Re-embedding happens exactly when the update names title or content. */
  predicate NeedsReembed(updates: Payload)
  {
    "title" in updates || "content" in updates
  }

  /** `set_payload`: overwrites the given keys and keeps the others. */
  function SetPayload(stored: Payload, p: Payload): Payload
  {
    stored + p
  }

  /** The merged dictionary already holds every stored key, so writing it with
      set_payload leaves exactly the merged dictionary. */
  lemma SetPayloadOfMerged(id: Id, stored: Payload, updates: Payload, now: string)
    ensures SetPayload(stored, Merge(DocOf(id, stored), updates, now)) == Merge(DocOf(id, stored), updates, now)
  {
    var merged := Merge(DocOf(id, stored), updates, now);
    assert SetPayload(stored, merged).Keys == merged.Keys;
  }

  /** The merged dictionary of an update keeps the stored shape. */
  lemma MergeKeepsSchema(id: Id, stored: Payload, updates: Payload, now: string)
    requires Schema(stored) && UpdateShape(updates)
    ensures Schema(Merge(DocOf(id, stored), updates, now))
  {
    var existing := DocOf(id, stored);
    var merged := Merge(existing, updates, now);
    forall key | key in {"title", "content", "category", "source_type", "tags"}
      ensures key in merged ==> merged[key] == if key in updates then updates[key] else stored[key]
    {
      assert key != "updated_at";
      if key !in updates && key in merged {
        assert key in existing && existing[key] == stored[key];
      }
    }
  }

  /** An update naming no "id" leaves the merged dictionary carrying the
      point's own id: from the stored payload when it names it, else from
      get_document. */
  lemma MergeOwnId(id: Id, stored: Payload, updates: Payload, now: string)
    requires OwnId(id, stored) && "id" !in updates
    ensures Merge(DocOf(id, stored), updates, now)["id"] == Str(id)
  {
    assert DocOf(id, stored)["id"] == Str(id);
  }

  /** The record update_document leaves at an existing id. */
  function Updated(embed: string -> Vector, rec: Record, id: Id, updates: Payload, now: string): (r: Record)
    requires Schema(rec.payload) && UpdateShape(updates)
    ensures r.payload == Merge(DocOf(id, rec.payload), updates, now)
    ensures Schema(r.payload)
    ensures NeedsReembed(updates) ==> r.vector == embed(TextOf(r.payload))
    ensures !NeedsReembed(updates) ==> r.vector == rec.vector
  {
    var merged := Merge(DocOf(id, rec.payload), updates, now);
    MergeKeepsSchema(id, rec.payload, updates, now);
    if NeedsReembed(updates) then
      Record(embed(TextOf(merged)), merged)
    else
      SetPayloadOfMerged(id, rec.payload, updates, now);
      Record(rec.vector, SetPayload(rec.payload, merged))
  }

  /** Writing the updated record keeps every stored payload well-shaped, and
      naming no foreign id when none did before and the updates name no "id". */
  lemma UpdatedKeepsShape(embed: string -> Vector, store: Store, id: Id, updates: Payload, now: string,
                          store': Store)
    requires id in store && UpdateShape(updates)
    requires forall sid :: sid in store ==> Schema(store[sid].payload)
    requires store' == store[id := Updated(embed, store[id], id, updates, now)]
    ensures forall sid :: sid in store' ==> Schema(store'[sid].payload)
    ensures (forall sid :: sid in store ==> OwnId(sid, store[sid].payload)) && "id" !in updates ==>
              forall sid :: sid in store' ==> OwnId(sid, store'[sid].payload)
  {
    if (forall sid :: sid in store ==> OwnId(sid, store[sid].payload)) && "id" !in updates {
      MergeOwnId(id, store[id].payload, updates, now);
    }
  }

  /** The embedding text after an update takes each of title and content from
      the update when it names it, and from the stored document otherwise. */
  lemma ReembedText(embed: string -> Vector, rec: Record, id: Id, updates: Payload, now: string)
    requires Schema(rec.payload) && UpdateShape(updates) && NeedsReembed(updates)
    ensures Updated(embed, rec, id, updates, now).vector ==
            embed(EmbeddingText(Get(updates, "title", rec.payload["title"]).s,
                                Get(updates, "content", rec.payload["content"]).s))
  {
  }

  /** `{"id": str(r.id), "score": r.score, **r.payload}`. */
  function ToResult(h: Hit): (r: Payload)
    ensures r.Keys == h.payload.Keys + {"id", "score"}
    ensures forall k :: k in h.payload ==> r[k] == h.payload[k]
    ensures "id" !in h.payload ==> r["id"] == Str(h.id)
    ensures "score" !in h.payload ==> r["score"] == Num(h.score)
  {
    map["id" := Str(h.id), "score" := Num(h.score)] + h.payload
  }

  function SearchResults(hits: seq<Hit>): (rs: seq<Payload>)
  {
    seq(|hits|, k requires 0 <= k < |hits| => ToResult(hits[k]))
  }

  /** When the index returns only stored payloads that pass the filter, every
      search result is a document of the requested category, source_type and tags. */
  lemma SearchResultsWanted(category: Option<string>, sourceType: Option<string>, tags: Option<seq<string>>,
                            hits: seq<Hit>)
    requires forall k :: 0 <= k < |hits| ==>
               Schema(hits[k].payload) && Admits(FilterFor(category, sourceType, tags), hits[k].payload)
    ensures forall k :: 0 <= k < |hits| ==> Wanted(category, sourceType, tags, SearchResults(hits)[k])
  {
    forall k | 0 <= k < |hits| ensures Wanted(category, sourceType, tags, SearchResults(hits)[k]) {
      var p := hits[k].payload;
      var r := SearchResults(hits)[k];
      FilterSemantics(category, sourceType, tags, p);
      assert Get(r, "category", Null) == Get(p, "category", Null);
      assert Get(r, "source_type", Null) == Get(p, "source_type", Null);
      assert Get(r, "tags", Null) == Get(p, "tags", Null);
    }
  }

  /** The hits whose id is not `id`, in their original order. */
  function ExcludeId(hits: seq<Hit>, id: Id): (r: seq<Hit>)
    ensures forall h :: h in r <==> h in hits && h.id != id
    ensures |r| <= |hits|
  {
    if hits == [] then []
    else (if hits[0].id != id then [hits[0]] else []) + ExcludeId(hits[1..], id)
  }

  /** Excluding distributes over concatenation: the relative order of the
      remaining hits is kept. */
  lemma {:induction false} ExcludeIdAppend(a: seq<Hit>, b: seq<Hit>, id: Id)
    ensures ExcludeId(a + b, id) == ExcludeId(a, id) + ExcludeId(b, id)
  {
    if a != [] {
      assert (a + b)[1..] == a[1..] + b;
      ExcludeIdAppend(a[1..], b, id);
    } else {
      assert a + b == b;
    }
  }

  /** When no hit is the document itself, nothing is excluded. */
  lemma {:induction false} ExcludeIdAbsent(hits: seq<Hit>, id: Id)
    requires forall k :: 0 <= k < |hits| ==> hits[k].id != id
    ensures ExcludeId(hits, id) == hits
  {
    if hits != [] {
      ExcludeIdAbsent(hits[1..], id);
    }
  }

  /** find_similar's shaping of the index hits. */
  function SimilarResults(hits: seq<Hit>, id: Id, limit: int): (r: seq<Payload>)
    ensures limit >= 0 ==> |r| <= limit
    ensures limit >= 0 ==> |r| == if limit < |ExcludeId(hits, id)| then limit else |ExcludeId(hits, id)|
    ensures forall k :: 0 <= k < |r| ==> exists h :: h in hits && h.id != id && r[k] == ToResult(h)
  {
    var kept := ExcludeId(hits, id);
    var r := Slice(SearchResults(kept), limit);
    assert forall k :: 0 <= k < |r| ==> kept[k] in hits && kept[k].id != id && r[k] == ToResult(kept[k]);
    r
  }

  /** The hits are stored points, each with its stored payload. */
  predicate HitsFromStore(hits: seq<Hit>, store: Store)
  {
    forall k :: 0 <= k < |hits| ==> hits[k].id in store && store[hits[k].id].payload == hits[k].payload
  }

  /** When the hits come from a store whose payloads name no foreign id, no
      result of find_similar describes the document it was asked about. */
  lemma SimilarNeverSelf(store: Store, hits: seq<Hit>, id: Id, limit: int)
    requires forall sid :: sid in store ==> OwnId(sid, store[sid].payload)
    requires HitsFromStore(hits, store)
    ensures forall r :: r in SimilarResults(hits, id, limit) ==> r["id"] != Str(id)
  {
    forall r | r in SimilarResults(hits, id, limit) ensures r["id"] != Str(id) {
      var h :| h in hits && h.id != id && r == ToResult(h);
      var k :| 0 <= k < |hits| && hits[k] == h;
      assert OwnId(h.id, h.payload);
    }
  }

  /** get_all_documents' shaping of a scroll page. */
  function ListDocuments(page: seq<Point>): seq<Payload>
  {
    seq(|page|, k requires 0 <= k < |page| => DocOf(page[k].id, page[k].payload))
  }

  /** The points of a page are stored records. */
  predicate PageFromStore(page: seq<Point>, store: Store)
  {
    forall k :: 0 <= k < |page| ==> page[k].id in store && store[page[k].id].payload == page[k].payload
  }

  /** Listing a page of stored points gives, for each, what get_document gives. */
  lemma ListAgreesWithGet(page: seq<Point>, store: Store)
    requires PageFromStore(page, store)
    ensures |ListDocuments(page)| == |page|
    ensures forall k :: 0 <= k < |page| ==> Lookup(store, page[k].id) == Some(ListDocuments(page)[k])
  {
  }
}
