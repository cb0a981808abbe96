/** QdrantService: the document service over one collection. The collection
    is the `docs` field; the embedder is a fixed function chosen at
    construction; the index's search and scroll answers are passed in as the
    functions `index` and `scroll`; ids, the current time and backend
    failures are parameters. */
module Service {
  import opened Values
  import opened Embedding
  import opened Filters
  import opened Index
  import opened Documents
  import opened Relationships
  import opened Stats

  class QdrantService {
    const embed: string -> Vector
    var docs: Store

    /** Every stored payload has the shape add and update write. */
    predicate Valid()
      reads this
    {
      forall id :: id in docs ==> Schema(docs[id].payload)
    }

    /** No stored payload names an id other than its own point's. Add, bulk
        add and delete keep this; update keeps it when the updates name no
        "id", as with every update the request schema admits. */
    predicate OwnIds()
      reads this
    {
      forall id :: id in docs ==> OwnId(id, docs[id].payload)
    }

    constructor (embed: string -> Vector)
      ensures Valid() && OwnIds()
      ensures this.embed == embed && docs == map[]
    {
      this.embed := embed;
      docs := map[];
    }

    /** add_document: one point, embedded from "title content". */
    method AddDocument(document: Payload, freshId: Id, now: string) returns (id: Id)
      requires CreateShape(document)
      modifies this
      ensures old(Valid()) ==> Valid()
      ensures old(OwnIds()) ==> OwnIds()
      ensures id == IdFor(document, freshId)
      ensures docs == old(docs)[id := Record(embed(TextOf(document)), AddPayload(document, now))]
    {
      id := IdFor(document, freshId);
      var text := TextOf(document);
      var vector := embed(text);
      var payload := AddPayload(document, now);
      assert "id" !in payload;
      docs := docs[id := Record(vector, payload)];
    }

    /** add_documents_bulk: one batch encoding, then one batch upsert; the
        clock is read once per document. */
    method AddDocumentsBulk(documents: seq<Payload>, freshIds: seq<Id>, nows: seq<string>) returns (ids: seq<Id>)
      requires |freshIds| == |documents| && |nows| == |documents|
      requires forall k :: 0 <= k < |documents| ==> CreateShape(documents[k])
      modifies this
      ensures old(Valid()) ==> Valid()
      ensures old(OwnIds()) ==> OwnIds()
      ensures |ids| == |documents|
      ensures forall k :: 0 <= k < |documents| ==> ids[k] == IdFor(documents[k], freshIds[k])
      ensures docs == UpsertAll(old(docs), BulkPoints(embed, documents, freshIds, nows))
    {
      var texts := seq(|documents|, k requires 0 <= k < |documents| => TextOf(documents[k]));
      var vectors := EncodeBatch(embed, texts);
      var points;
      ids, points := BulkPointsOf(embed, documents, freshIds, nows, vectors);
      BulkUpsertKeepsShape(docs, points, embed, documents, freshIds, nows);
      docs := UpsertAll(docs, points);
    }

    /** The loop of add_documents_bulk: pairs each document with its vector,
        collecting its id and its point. */
    static method BulkPointsOf(embed: string -> Vector, documents: seq<Payload>, freshIds: seq<Id>,
                               nows: seq<string>, vectors: seq<Vector>)
      returns (ids: seq<Id>, points: seq<PointStruct>)
      requires |freshIds| == |documents| && |nows| == |documents| && |vectors| == |documents|
      requires forall k :: 0 <= k < |documents| ==>
                 CreateShape(documents[k]) && vectors[k] == embed(TextOf(documents[k]))
      ensures points == BulkPoints(embed, documents, freshIds, nows)
      ensures |ids| == |documents|
      ensures forall k :: 0 <= k < |documents| ==> ids[k] == IdFor(documents[k], freshIds[k])
    {
      ghost var expected := BulkPoints(embed, documents, freshIds, nows);
      ids := [];
      points := [];
      var i := 0;
      while i < |documents|
        invariant 0 <= i <= |documents|
        invariant points == expected[..i]
        invariant |ids| == i && forall k :: 0 <= k < i ==> ids[k] == expected[k].id
      {
        var doc := documents[i];
        var id := IdFor(doc, freshIds[i]);
        ids := ids + [id];
        assert expected[..i + 1] == expected[..i] + [expected[i]];
        points := points + [PointStruct(id, Record(vectors[i], BulkPayload(doc, nows[i])))];
        i := i + 1;
      }
      assert points == expected;
    }

    /** get_document: None for a missing id and when the backend fails. */
    method GetDocument(id: Id, fails: bool) returns (r: Option<Payload>)
      ensures r == if fails then None else Lookup(docs, id)
      ensures OwnIds() && r.Some? ==> r.value["id"] == Str(id)
    {
      if fails {
        return None;
      }
      if id in docs {
        r := Some(DocOf(id, docs[id].payload));
      } else {
        r := None;
      }
    }

    /** update_document: false, and no change, when get_document finds nothing;
        otherwise the merged payload is written, re-embedded when the update
        names title or content and with the old vector otherwise. */
    method UpdateDocument(id: Id, updates: Payload, now: string, retrieveFails: bool) returns (ok: bool)
      requires Valid() && UpdateShape(updates)
      modifies this
      ensures Valid()
      ensures old(OwnIds()) && "id" !in updates ==> OwnIds()
      ensures ok <==> !retrieveFails && id in old(docs)
      ensures !ok ==> docs == old(docs)
      ensures ok ==> docs == old(docs)[id := Updated(embed, old(docs)[id], id, updates, now)]
    {
      var existing := GetDocument(id, retrieveFails);
      if existing.None? {
        return false;
      }
      var merged := Merge(existing.value, updates, now);
      ghost var expected := Updated(embed, docs[id], id, updates, now);
      assert merged == expected.payload;
      UpdatedKeepsShape(embed, docs, id, updates, now, docs[id := expected]);
      if NeedsReembed(updates) {
        var vector := embed(TextOf(merged));
        docs := docs[id := Record(vector, merged)];
      } else {
        docs := docs[id := Record(docs[id].vector, SetPayload(docs[id].payload, merged))];
      }
      ok := true;
    }

    /** delete_document: true unless the backend fails, whether or not the id
        was stored; on success that id is gone and nothing else changes. */
    method DeleteDocument(id: Id, fails: bool) returns (ok: bool)
      modifies this
      ensures old(Valid()) ==> Valid()
      ensures old(OwnIds()) ==> OwnIds()
      ensures ok == !fails
      ensures docs == if fails then old(docs) else Remove(old(docs), id)
    {
      if fails {
        return false;
      }
      docs := Remove(docs, id);
      ok := true;
    }

    /** search: embeds the query, builds the filter, shapes the index's hits. */
    method Search(query: string, limit: int, threshold: real,
                  category: Option<string>, sourceType: Option<string>, tags: Option<seq<string>>,
                  index: SearchRequest -> seq<Hit>)
      returns (results: seq<Payload>)
      ensures var hits := index(SearchRequest(embed(query), FilterFor(category, sourceType, tags), limit, threshold));
              |results| == |hits| && forall k :: 0 <= k < |hits| ==> results[k] == ToResult(hits[k])
    {
      var queryVector := embed(query);
      var filter := BuildFilter(category, sourceType, tags);
      var hits := index(SearchRequest(queryVector, filter, limit, threshold));
      results := SearchResults(hits);
    }

    /** find_similar: [] for a missing document; otherwise the hits of a
        search by its own vector for limit + 1 points, without itself, cut to limit. */
    method FindSimilar(id: Id, limit: int, threshold: real, index: SearchRequest -> seq<Hit>)
      returns (results: seq<Payload>)
      ensures id !in docs ==> results == []
      ensures id in docs ==>
                results == SimilarResults(index(SearchRequest(docs[id].vector, None, limit + 1, threshold)), id, limit)
      ensures (OwnIds() && id in docs && HitsFromStore(index(SearchRequest(docs[id].vector, None, limit + 1, threshold)), docs))
                ==> forall r :: r in results ==> r["id"] != Str(id)
    {
      if id !in docs {
        return [];
      }
      var vector := docs[id].vector;
      var hits := index(SearchRequest(vector, None, limit + 1, threshold));
      results := SimilarResults(hits, id, limit);
      ghost var own := OwnIds() && HitsFromStore(hits, docs);
      if own {
        SimilarNeverSelf(docs, hits, id, limit);
      }
    }

    /** get_relationships: a node per retrieved point, then each point's
        neighbour search, keeping an edge per unseen unordered pair. */
    method GetRelationships(docIds: seq<Id>, threshold: real, index: SearchRequest -> seq<Hit>)
      returns (nodes: seq<Node>, edges: seq<Edge>)
      ensures var ids := Retrieved(docs, docIds);
              |nodes| == |ids| && forall k :: 0 <= k < |ids| ==> nodes[k] == NodeOf(ids[k], docs[ids[k]].payload)
      ensures edges == GraphEdges(docs, docIds, threshold, index)
    {
      var points := Retrieved(docs, docIds);
      nodes := [];
      var i := 0;
      while i < |points|
        invariant 0 <= i <= |points|
        invariant |nodes| == i
        invariant forall k :: 0 <= k < i ==> nodes[k] == NodeOf(points[k], docs[points[k]].payload)
      {
        nodes := nodes + [NodeOf(points[i], docs[points[i]].payload)];
        i := i + 1;
      }

      edges := CollectAllEdges(docs, points, docIds, threshold, index);
    }

    /** The outer loop of get_relationships: each retrieved point's neighbour
        search in turn, with one set of seen pairs across all of them. */
    static method CollectAllEdges(store: Store, points: seq<Id>, docIds: seq<Id>, threshold: real,
                                  index: SearchRequest -> seq<Hit>)
      returns (edges: seq<Edge>)
      requires forall id :: id in points ==> id in store
      ensures edges == Dedup(Candidates(store, points, docIds, threshold, index), {})
    {
      ghost var all := Candidates(store, points, docIds, threshold, index);
      edges := [];
      var seen: set<set<Id>> := {};
      var i := 0;
      while i < |points|
        invariant 0 <= i <= |points|
        invariant edges + Dedup(Candidates(store, points[i..], docIds, threshold, index), seen) == Dedup(all, {})
      {
        var source := points[i];
        var similar := index(NeighbourRequest(store, source, threshold));
        ghost var later := Candidates(store, points[i + 1..], docIds, threshold, index);
        assert points[i..][1..] == points[i + 1..];
        assert Candidates(store, points[i..], docIds, threshold, index) == Discovered(source, similar, docIds) + later;
        edges, seen := CollectEdges(source, similar, docIds, edges, seen, later);
        i := i + 1;
      }
      assert points[i..] == [];
    }

    /** The inner loop of get_relationships over one point's hits: appends each
        qualifying hit's edge whose pair is unseen and marks the pair seen; the
        result then continues deduplicating whatever candidates follow. */
    static method CollectEdges(source: Id, similar: seq<Hit>, docIds: seq<Id>,
                               edges: seq<Edge>, seen: set<set<Id>>, ghost later: seq<Edge>)
      returns (edges': seq<Edge>, seen': set<set<Id>>)
      ensures edges' + Dedup(later, seen') == edges + Dedup(Discovered(source, similar, docIds) + later, seen)
    {
      edges', seen' := edges, seen;
      ghost var goal := edges + Dedup(Discovered(source, similar, docIds) + later, seen);
      var hits := similar;
      while hits != []
        invariant edges' + Dedup(Discovered(source, hits, docIds) + later, seen') == goal
      {
        ghost var rest := Discovered(source, hits[1..], docIds) + later;
        ghost var proposed := if Qualifies(source, hits[0], docIds)
                              then [Edge(source, hits[0].id, hits[0].score)] else [];
        assert Discovered(source, hits, docIds) + later == proposed + rest;
        edges', seen' := CollectHit(source, hits[0], docIds, edges', seen', rest);
        hits := hits[1..];
      }
      assert Discovered(source, hits, docIds) + later == later;
    }

    /** The body of the inner loop for one hit: a qualifying hit whose pair is
        unseen adds its edge and marks the pair seen. */
    static method CollectHit(source: Id, sim: Hit, docIds: seq<Id>,
                             edges: seq<Edge>, seen: set<set<Id>>, ghost rest: seq<Edge>)
      returns (edges': seq<Edge>, seen': set<set<Id>>)
      ensures edges' + Dedup(rest, seen') ==
              edges + Dedup((if Qualifies(source, sim, docIds) then [Edge(source, sim.id, sim.score)] else []) + rest, seen)
    {
      edges', seen' := edges, seen;
      if Qualifies(source, sim, docIds) {
        var edge := Edge(source, sim.id, sim.score);
        DedupStep(edges, edge, rest, seen);
        if Key(edge) !in seen {
          seen' := seen + {Key(edge)};
          edges' := edges + [edge];
        }
      } else {
        assert [] + rest == rest;
      }
    }

    /** get_collection_stats: the document count and counters over one scroll
        of at most 10000 points; fails when a scanned document's tags are None. */
    method GetCollectionStats(scroll: ScrollRequest -> seq<Point>) returns (r: Result<CollectionStats>)
      requires Valid()
      requires PageFromStore(scroll(ScrollRequest(StatsScrollLimit, None)), docs)
      ensures var page := scroll(ScrollRequest(StatsScrollLimit, None));
              && (forall k :: 0 <= k < |page| ==> Schema(page[k].payload))
              && (r.Failure? <==> exists k :: 0 <= k < |page| && !TagsIterable(page[k].payload))
              && (r.Success? ==> r.value == StatsOf(|docs|, page))
    {
      var page := scroll(ScrollRequest(StatsScrollLimit, None));
      assert forall k :: 0 <= k < |page| ==> Schema(page[k].payload) by {
        forall k | 0 <= k < |page| ensures Schema(page[k].payload) {
          assert page[k].id in docs;
        }
      }
      r := CountPage(|docs|, page);
    }

    /** get_all_documents: a page of the scroll, each point as get_document shows it. */
    method GetAllDocuments(limit: int, offset: int, scroll: ScrollRequest -> seq<Point>) returns (r: seq<Payload>)
      ensures var page := scroll(ScrollRequest(limit, Some(offset)));
              |r| == |page| && forall k :: 0 <= k < |page| ==> r[k] == DocOf(page[k].id, page[k].payload)
    {
      var page := scroll(ScrollRequest(limit, Some(offset)));
      r := ListDocuments(page);
    }
  }
}
