# QdrantService, modelled in Dafny

This project models the document service of a knowledge-base backend. The
service stores documents in one collection of a Qdrant vector index. Each
document is a point: its id, the embedding of "title content", and a JSON
payload. Over that collection the service offers these operations:

- add, one document at a time or in bulk;
- get, update and delete;
- filtered semantic search;
- similar-document search;
- a relationship graph between chosen documents;
- collection statistics;
- a paginated listing.

The data is laid out as follows:

- **Values.** Payload values are a small JSON datatype.
- **Filters.** The search filter is a list of field conditions that must all hold.
- **Index.** The collection is `map<Id, Record>`, and the writes the service issues are functions on that map.
- **Documents.** The service's own policies are pure functions with lemmas:
  - the payload defaults;
  - the id choice;
  - the update merge and the re-embed rule;
  - the shaping of results.
- **Relationships.** The graph: one node per retrieved point, and the edge deduplication by unordered pair.
- **Stats.** The frequency counters.
- **Service.** The class `QdrantService` keeps the collection in its field `docs`. Every operation is a method on it. The loops of the source are `while` loops, proved against the specification functions of the other modules.

Some parts of the environment appear as parameters:

- **The embedder** is a fixed function `embed: string -> Vector`, given at construction.
- **The index's answers** are passed per call, as functions from the request to the answer. These are `index: SearchRequest -> seq<Hit>` and `scroll: ScrollRequest -> seq<Point>`. The request sizes the service chooses (`limit + 1`, 10, 10000) stay visible in the contracts.
- **Generated UUIDs, the clock** and backend failures are parameters too.

The model follows the code in these places, where a reader might expect something else:

- `delete_document` returns true for an id that was never stored.
- Several `filter_tags` become one condition each, combined with AND, so a hit must carry every requested tag.
- An edge's `source` is the point whose neighbour search found the pair, not the smaller id of the pair.
- The statistics come from a single scroll of at most 10000 points. `total_documents` is the collection's point count, which is the size of `docs` here.
- `add_document` keeps a caller-supplied `created_at` and `updated_at`. `add_documents_bulk` always stamps the current time and `updated_at = None`, and reads the clock once per document.
- The merged payload of an update takes on the `"id"` key that `get_document` adds, and that key is stored with it.

## Model

| member | source | states |
|---|---|---|
| Embedding.EncodeBatch | backend/services/embedding_service.py:46-54 | one vector per text, in order, the k-th being the embedding of the k-th text |
| Filters.TagConditionsMembers | backend/services/qdrant_service.py:230-234 | one "tags" condition per requested tag, in the order of the tags, repeats included; so the conditions present are exactly the "tags" conditions on requested tags |
| Filters.ConditionsMembers | backend/services/qdrant_service.py:221-234 | the conditions are exactly the category condition when a category is given, the source_type condition when a source type is given, and a "tags" condition per requested tag |
| Filters.NoFilterWhenNothingGiven | backend/services/qdrant_service.py:221-236 | no filter is passed iff category, source type and tags are all absent or empty |
| Filters.FilterSemantics | backend/services/qdrant_service.py:221-236 | a stored payload passes the filter iff its category and source_type equal the given ones and its tags contain every given tag |
| Filters.BuildFilter | backend/services/qdrant_service.py:221-236 | the condition-appending loop yields the filter `FilterFor` |
| Index.IdsMeans | backend/services/qdrant_service.py:130-133 | the batch's ids are the points' ids, one per point, in order |
| Index.UpsertAllEffect | backend/services/qdrant_service.py:130-133 | after a batch upsert the stored ids are the old ones plus the batch's; each batch id holds its last point's record; every other record is kept |
| Index.UpsertAllSchema | backend/services/qdrant_service.py:130-133 | upserting well-shaped payloads keeps every stored payload well-shaped |
| Index.UpsertAllOwnIds | backend/services/qdrant_service.py:130-133 | upserting payloads that name no foreign id keeps every stored payload naming no foreign id |
| Index.Remove | backend/services/qdrant_service.py:196-201 | the deleted id is gone and every other record is unchanged |
| Index.Slice | backend/services/qdrant_service.py:292 | Python's `[:stop]`: its length for non-negative and negative stops, and it is a prefix |
| Index.Retrieved | backend/services/qdrant_service.py:305-310 | the retrieved ids are exactly the requested ids that are stored, each once |
| Documents.IdFor | backend/services/qdrant_service.py:66 | the document's own "id" when it has one, else the generated id |
| Documents.DocumentPayload | backend/services/qdrant_service.py:73-83 | a new payload has exactly the nine payload keys and the stored shape |
| Documents.AddPayloadFields | backend/services/qdrant_service.py:73-83 | add copies the document's fields with those defaults; created_at defaults to now and updated_at to None |
| Documents.PayloadCopies | backend/services/qdrant_service.py:73-83 | a new payload has exactly the nine payload keys; it copies title and content, and source, source_type and category default to None, tags to [] and metadata to {} |
| Documents.BulkPointsShape | backend/services/qdrant_service.py:105-128 | bulk add makes one point per document, in order, under its id, embedded from "title content", well shaped, copying the document's fields with the defaults of add, created at its own clock reading and with updated_at None |
| Documents.BulkUpsertKeepsShape | backend/services/qdrant_service.py:112-133 | the bulk upsert keeps every stored payload well shaped, and, since bulk payloads carry no "id", naming no foreign id |
| Documents.Lookup | backend/services/qdrant_service.py:140-153 | get finds a document iff its id is stored; the result holds every payload key and value, plus "id" set to the point id unless the payload has its own "id" |
| Documents.AddThenGet | backend/services/qdrant_service.py:64-94 | after add, get under the returned id finds the document: the nine payload fields as stored, plus its id |
| Documents.Merge | backend/services/qdrant_service.py:165 | the merged keys are the union of both key sets plus updated_at; updates win over existing values; updated_at is now |
| Documents.SetPayloadOfMerged | backend/services/qdrant_service.py:184-188 | writing the merged dictionary with set_payload stores exactly the merged dictionary |
| Documents.MergeOwnId | backend/services/qdrant_service.py:149-165 | an update naming no "id" leaves the merged dictionary's "id" as the point's own id |
| Documents.MergeKeepsSchema | backend/services/qdrant_service.py:165 | merging well-typed updates into a stored payload keeps the stored shape |
| Documents.Updated | backend/services/qdrant_service.py:165-188 | the updated record carries the merged payload; it is re-embedded from the merged title and content when the update names title or content, and keeps the old vector otherwise |
| Documents.UpdatedKeepsShape | backend/services/qdrant_service.py:165-188 | writing the updated record keeps every stored payload well shaped, and naming no foreign id when the updates name no "id" |
| Documents.ReembedText | backend/services/qdrant_service.py:168-170 | the new embedding text takes each of title and content from the update when named there, and from the stored document otherwise |
| Documents.ToResult | backend/services/qdrant_service.py:247-254 | a search result holds the hit's payload plus "id" and "score" taken from the hit, unless the payload already has those keys |
| Documents.SearchResultsWanted | backend/services/qdrant_service.py:221-254 | when the index honours the filter, every search result has the requested category and source type and carries every requested tag |
| Documents.ExcludeId | backend/services/qdrant_service.py:284-291 | the kept hits are exactly the hits whose id differs from the document's |
| Documents.ExcludeIdAppend | backend/services/qdrant_service.py:284-291 | exclusion keeps the relative order of the hits |
| Documents.ExcludeIdAbsent | backend/services/qdrant_service.py:284-291 | when no hit is the document itself, nothing is excluded |
| Documents.SimilarResults | backend/services/qdrant_service.py:284-292 | at most `limit` results, exactly min(limit, number of other hits); every result is a shaped hit of another document |
| Documents.SimilarNeverSelf | backend/services/qdrant_service.py:284-292 | when the hits are stored points of a store whose payloads name no foreign id, no similar result carries the queried document's id |
| Documents.ListAgreesWithGet | backend/services/qdrant_service.py:387-393 | each listed document is what get_document returns for that id |
| Relationships.Discovered | backend/services/qdrant_service.py:331-333 | every edge one point proposes runs from that point to another requested document |
| Relationships.Candidates | backend/services/qdrant_service.py:322-333 | every proposed edge runs from a retrieved point to a different requested document |
| Relationships.DedupDistinct | backend/services/qdrant_service.py:333-335 | no two kept edges share an unordered pair, and none has a pair seen beforehand |
| Relationships.DedupFirst | backend/services/qdrant_service.py:333-340 | each kept edge is the earliest proposal of its pair, so its weight is that first hit's score |
| Relationships.DedupComplete | backend/services/qdrant_service.py:333-340 | every proposed pair not seen beforehand is represented by a kept edge |
| Relationships.GraphEdgesProperties | backend/services/qdrant_service.py:322-342 | graph edges have distinct unordered pairs; each has source != target, a retrieved source and a requested target; each is its pair's first proposal; every proposed pair appears |
| Stats.TallyCounts | backend/services/qdrant_service.py:362 | a counter holds exactly the values fed to it, each with its number of occurrences, which is positive |
| Stats.LabelsCount | backend/services/qdrant_service.py:360-366 | a category or source_type value is counted once per document holding it; the empty string and None never |
| Stats.CategoryCounts | backend/services/qdrant_service.py:359-366 | the category and source_type counters hold exactly the non-empty values that occur, each with the number of documents holding it |
| Stats.TagCounts | backend/services/qdrant_service.py:368-369 | the tag counter holds exactly the tags that occur, each with its number of occurrences over all documents |
| Stats.TagTallyExample | backend/services/qdrant_service.py:368-369 | tags ["a","b"], ["a"], ["b","c"] count as a: 2, b: 2, c: 1 |
| Stats.TagStatsExample | backend/services/qdrant_service.py:359-369 | a page of documents tagged ["a","b"], ["a"], ["b","c"] has the tag counts a: 2, b: 2, c: 1 |
| Stats.CountTags | backend/services/qdrant_service.py:368-369 | the tag loop over one document feeds the counter with its tags in order |
| Stats.CountLabel | backend/services/qdrant_service.py:360-366 | a truthy value is counted once, and None or "" leaves the counter unchanged |
| Stats.CountPoint | backend/services/qdrant_service.py:359-369 | one iteration of the scan counts the point's category, source type and tags, and reports whether its tags could be iterated |
| Stats.AllIterableMeans | backend/services/qdrant_service.py:368 | the scan's running condition means that every document so far has list tags |
| Stats.CountPage | backend/services/qdrant_service.py:359-369 | the scan fails iff some document's tags are None; otherwise it returns the counters of the page |
| Service.QdrantService.AddDocument | backend/services/qdrant_service.py:64-97 | returns the document's id; the store gains exactly that record, embedded from "title content" with the add payload; on any store; the stored shape, and the absence of foreign ids, are kept when they held |
| Service.QdrantService.AddDocumentsBulk | backend/services/qdrant_service.py:99-136 | returns one id per document, in input order; the store is the old one upserted with the bulk points; on any store; the stored shape, and the absence of foreign ids, are kept when they held |
| Service.QdrantService.BulkPointsOf | backend/services/qdrant_service.py:108-128 | the zip loop returns one id per document in order and exactly the bulk points, the k-th carrying the k-th vector |
| Service.QdrantService.GetDocument | backend/services/qdrant_service.py:138-156 | None when the backend fails or the id is not stored; otherwise the stored payload with its id, and that "id" is the requested one when no payload names a foreign id |
| Service.QdrantService.UpdateDocument | backend/services/qdrant_service.py:158-191 | true iff the document is found, else no change; on success only that id changes, to the updated record; the stored shape is kept, and so is the absence of foreign ids when the updates name no "id" |
| Service.QdrantService.DeleteDocument | backend/services/qdrant_service.py:193-206 | true exactly when the backend does not fail, also for an absent id; then that id is removed and nothing else changes; on any store; the stored shape, and the absence of foreign ids, are kept when they held |
| Service.QdrantService.Search | backend/services/qdrant_service.py:208-254 | queries the index with the query's embedding and the built filter, and returns each hit in order, shaped as a result |
| Service.QdrantService.FindSimilar | backend/services/qdrant_service.py:256-292 | [] for a missing document; otherwise the shaped hits of a search by its own vector for limit + 1 points, without itself, cut to limit; none of them carries its id when the hits are stored points and no payload names a foreign id |
| Service.QdrantService.GetRelationships | backend/services/qdrant_service.py:294-342 | one node per retrieved document in retrieval order, with title defaulting to ""; the edges are the deduplicated graph edges |
| Service.QdrantService.CollectAllEdges | backend/services/qdrant_service.py:322-340 | the loop over retrieved points, sharing one seen-set, yields the deduplicated candidate edges |
| Service.QdrantService.CollectEdges | backend/services/qdrant_service.py:331-340 | the loop over one point's hits appends exactly the edges deduplication keeps from that point's proposals |
| Service.QdrantService.CollectHit | backend/services/qdrant_service.py:332-340 | one hit: a qualifying hit of an unseen pair appends its edge and marks the pair seen, as deduplication of that hit's proposal does |
| Service.QdrantService.GetCollectionStats | backend/services/qdrant_service.py:344-376 | scans one scroll of 10000 points; fails iff a scanned document's tags are None; otherwise returns the store size and the page's counters |
| Service.QdrantService.GetAllDocuments | backend/services/qdrant_service.py:378-393 | each point of the scroll page, in order, as get_document shows it |

## Left out

- `__init__`, `_ensure_collection` and the module-level singletons are left out. They read the environment and connect to the server. When the collection is absent they create it with its payload indexes; otherwise they reuse the existing, possibly non-empty collection. The constructor's empty store is a simplification of this model. Get, delete, add, bulk add, search, find_similar, relationships and listing are specified against any store; add, bulk add and delete keep `Valid()` (every stored payload has the stored shape) when it held before. Update and the statistics are specified only for stores whose payloads have the stored shape (`Valid()`), since they read title, content and tags as typed.
- The embedding service's internals are left out: the sentence-transformers model and float normalisation. The embedder is an opaque function, and `encode_batch` maps it over the list.
- Qdrant's own semantics are left out: cosine scoring, ranking, applying the score threshold, and the meaning of a scroll offset. Hit lists and scroll pages are inputs. The properties that depend on what the index returns assume it in their requires:
  - GetCollectionStats and ListAgreesWithGet: scrolled points are stored records (`PageFromStore`);
  - SearchResultsWanted: search hits have stored-shape payloads that pass the filter;
  - SimilarNeverSelf and FindSimilar's self-exclusion clause: hits are stored points (`HitsFromStore`);
  - Index.Retrieved fixes the order of `retrieve` (see its line below).

  Nothing is proved about score order or threshold bounds, which the service never enforces.
- The HTTP routers, `main.py` and the pydantic models are left out. The models only shape the datatypes here: `CreateShape`, `UpdateShape` and `Schema`.
- UUID generation and `datetime.utcnow()` become parameters. Logging is left out.
- Ids: a point id is modelled as the exact string it is stored under, which is the canonical lower-case hyphenated form that `uuid4` produces. Qdrant accepts only UUIDs and unsigned integers as ids. It treats other spellings of one UUID (upper case, no hyphens, `urn:uuid:`) as the same point and always answers with the canonical form; non-UUID ids and these other spellings are not modelled. The service compares the ids Qdrant returns with the caller's strings, as plain strings (qdrant_service.py:291 and :332). So GetDocument's `"id"` clause, FindSimilar's self-exclusion, Documents.SimilarNeverSelf and GetRelationships' nodes and edges hold only when callers pass canonical spellings. With another spelling of a stored id, the source finds the point, and find_similar can then return the document among its own similar documents, whereas the model answers as for an absent id.
- Default arguments become required parameters: `limit=10` and `score_threshold=0.5` of search and find_similar (qdrant_service.py:211-212, 259-260), `similarity_threshold=0.6` of get_relationships (:297), and `limit=100, offset=0` of get_all_documents (:378). In the model every argument is passed explicitly; the defaults are not modelled.
- Documents.TextOf: requires string title and content, as the request schemas type them. How an f-string renders other values is not modelled.
- Index.Retrieved: `retrieve` with several ids is assumed to answer in request order, the stored ids only, each once. Qdrant does not document this order.
- Index.UpsertAll: a batch upsert is modelled as applying its points in order, so a repeated id keeps its last point.
- Stats.Label: counts a value only if it is a non-empty string. The source counts any truthy value, but every stored category and source_type is a string or None, so the two agree on stored data.
- Service.QdrantService.GetCollectionStats: `points_count` is modelled as the number of stored records. Scroll pages beyond the first 10000 points are never read, as in the source.
- Backend failures are boolean parameters: `fails` on get and delete, and `retrieveFails` on update, which reaches update through get_document. Exceptions that the source lets propagate from add, bulk add, update, search, find_similar, relationships, stats and listing are not modelled. In particular, UpdateDocument assumes that the `encode_single`, `upsert` and `set_payload` calls that follow a successful get succeed (qdrant_service.py:168-188). The one exception modelled is a `None` tags value, which makes the statistics scan fail.
- Documents.SimilarNeverSelf: holds only while no stored payload names a foreign "id" (`OwnIds`). Add, bulk add and delete keep that. update_document stores any "id" key it is handed, and afterwards get and search report that foreign id. The request schema for updates has no "id" field (models.py:23-31), so updates through the HTTP layer never carry one. The model therefore proves `OwnIds` kept only for updates without "id".
- Concurrency: each method runs alone against the store.
