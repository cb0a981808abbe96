/** The relationship graph over a set of documents: one node per retrieved
    point, and one edge per unordered pair of documents found similar,
    kept at its first discovery. */
module Relationships {
  import opened Values
  import opened Index

  datatype Node = Node(id: Id, title: Value, category: Value, sourceType: Value)

  datatype Edge = Edge(source: Id, target: Id, weight: real)

  /** The candidate limit of each point's neighbour search. */
  const NeighbourLimit: int := 10

  /** A node: title defaults to "", category and source_type to None. */
  function NodeOf(id: Id, p: Payload): Node
  {
    Node(id, Get(p, "title", Str("")), Get(p, "category", Null), Get(p, "source_type", Null))
  }

  /** The edge's unordered endpoint pair (`get_relationships`' sorted 2-tuple). */
  function Key(e: Edge): set<Id>
  {
    {e.source, e.target}
  }

  /** The search issued for one retrieved point: its own vector, no filter. */
  function NeighbourRequest(store: Store, id: Id, threshold: real): SearchRequest
    requires id in store
  {
    SearchRequest(store[id].vector, None, NeighbourLimit, threshold)
  }

  /** A hit is a neighbour of `source` when it is another requested document. */
  predicate Qualifies(source: Id, h: Hit, docIds: seq<Id>)
  {
    h.id != source && h.id in docIds
  }

  /** The edges one point's hits propose, in hit order. */
  function Discovered(source: Id, hits: seq<Hit>, docIds: seq<Id>): (es: seq<Edge>)
    ensures forall e :: e in es ==> e.source == source && e.target != source && e.target in docIds
  {
    if hits == [] then []
    else
      (if Qualifies(source, hits[0], docIds) then [Edge(source, hits[0].id, hits[0].score)] else [])
      + Discovered(source, hits[1..], docIds)
  }

  /** All proposed edges, point by point in retrieval order. */
  function Candidates(store: Store, ids: seq<Id>, docIds: seq<Id>, threshold: real,
                      index: SearchRequest -> seq<Hit>): (es: seq<Edge>)
    requires forall id :: id in ids ==> id in store
    ensures forall e :: e in es ==> e.source in ids && e.target != e.source && e.target in docIds
  {
    if ids == [] then []
    else
      Discovered(ids[0], index(NeighbourRequest(store, ids[0], threshold)), docIds)
      + Candidates(store, ids[1..], docIds, threshold, index)
  }

  /** Keeps each candidate whose pair has not been seen, and marks it seen. */
  function Dedup(cs: seq<Edge>, seen: set<set<Id>>): seq<Edge>
  {
    if cs == [] then []
    else if Key(cs[0]) in seen then Dedup(cs[1..], seen)
    else [cs[0]] + Dedup(cs[1..], seen + {Key(cs[0])})
  }

  /** The edges get_relationships returns. */
  function GraphEdges(store: Store, docIds: seq<Id>, threshold: real, index: SearchRequest -> seq<Hit>): seq<Edge>
  {
    Dedup(Candidates(store, Retrieved(store, docIds), docIds, threshold, index), {})
  }

  lemma DedupCons(e: Edge, rest: seq<Edge>, seen: set<set<Id>>)
    ensures Dedup([e] + rest, seen) ==
            if Key(e) in seen then Dedup(rest, seen) else [e] + Dedup(rest, seen + {Key(e)})
  {
    assert ([e] + rest)[0] == e;
    assert ([e] + rest)[1..] == rest;
  }

  /** One step of the deduplicating loop: an edge of an unseen pair is
      appended and its pair marked seen; otherwise nothing changes. */
  lemma DedupStep(edges: seq<Edge>, e: Edge, rest: seq<Edge>, seen: set<set<Id>>)
    ensures Key(e) in seen ==> edges + Dedup(rest, seen) == edges + Dedup([e] + rest, seen)
    ensures Key(e) !in seen ==> (edges + [e]) + Dedup(rest, seen + {Key(e)}) == edges + Dedup([e] + rest, seen)
  {
    DedupCons(e, rest, seen);
    if Key(e) !in seen {
      var tail := Dedup(rest, seen + {Key(e)});
      assert (edges + [e]) + tail == edges + ([e] + tail);
    }
  }

  /** No kept edge repeats a pair, and none is a pair seen beforehand. */
  lemma {:induction false} DedupDistinct(cs: seq<Edge>, seen: set<set<Id>>)
    ensures forall e :: e in Dedup(cs, seen) ==> e in cs && Key(e) !in seen
    ensures forall i, j :: 0 <= i < j < |Dedup(cs, seen)| ==> Key(Dedup(cs, seen)[i]) != Key(Dedup(cs, seen)[j])
  {
    if cs != [] {
      if Key(cs[0]) in seen {
        DedupDistinct(cs[1..], seen);
      } else {
        DedupDistinct(cs[1..], seen + {Key(cs[0])});
        var r := Dedup(cs, seen);
        assert r[1..] == Dedup(cs[1..], seen + {Key(cs[0])});
        forall i, j | 0 <= i < j < |r| ensures Key(r[i]) != Key(r[j]) {
          if i == 0 {
            assert r[j] in r[1..];
          } else {
            assert r[i] == r[1..][i - 1] && r[j] == r[1..][j - 1];
          }
        }
      }
    }
  }

  /** Every kept edge is the earliest candidate of its pair. */
  lemma {:induction false} DedupFirst(cs: seq<Edge>, seen: set<set<Id>>)
    ensures forall i :: 0 <= i < |Dedup(cs, seen)| ==>
              exists j :: 0 <= j < |cs| && cs[j] == Dedup(cs, seen)[i]
                && forall j' :: 0 <= j' < j ==> Key(cs[j']) != Key(cs[j])
  {
    if cs != [] {
      var r := Dedup(cs, seen);
      var k0 := Key(cs[0]);
      var seen' := if k0 in seen then seen else seen + {k0};
      var tail := Dedup(cs[1..], seen');
      DedupFirst(cs[1..], seen');
      DedupDistinct(cs[1..], seen');
      assert r == if k0 in seen then tail else [cs[0]] + tail;
      forall i | 0 <= i < |r|
        ensures exists j :: 0 <= j < |cs| && cs[j] == r[i] && forall j' :: 0 <= j' < j ==> Key(cs[j']) != Key(cs[j])
      {
        if k0 !in seen && i == 0 {
          assert cs[0] == r[0];
        } else {
          var t := if k0 in seen then i else i - 1;
          assert r[i] == tail[t];
          var j :| 0 <= j < |cs[1..]| && cs[1..][j] == tail[t]
                   && forall j' :: 0 <= j' < j ==> Key(cs[1..][j']) != Key(cs[1..][j]);
          assert tail[t] in tail;
          assert Key(tail[t]) != k0;
          assert cs[j + 1] == cs[1..][j];
          forall j' | 0 <= j' < j + 1 ensures Key(cs[j']) != Key(cs[j + 1]) {
            if j' > 0 {
              assert cs[j'] == cs[1..][j' - 1];
            }
          }
          assert 0 <= j + 1 < |cs| && cs[j + 1] == r[i];
        }
      }
    } else {
      assert Dedup(cs, seen) == [];
    }
  }

  /** Every candidate's pair is kept, unless it was seen beforehand. */
  lemma {:induction false} DedupComplete(cs: seq<Edge>, seen: set<set<Id>>)
    ensures forall c :: c in cs ==> Key(c) in seen || exists e :: e in Dedup(cs, seen) && Key(e) == Key(c)
  {
    if cs != [] {
      var k0 := Key(cs[0]);
      var seen' := if k0 in seen then seen else seen + {k0};
      DedupComplete(cs[1..], seen');
      forall c | c in cs ensures Key(c) in seen || exists e :: e in Dedup(cs, seen) && Key(e) == Key(c) {
        if c != cs[0] {
          assert c in cs[1..];
          if Key(c) == k0 && k0 !in seen {
            assert cs[0] in Dedup(cs, seen);
          }
        } else if k0 !in seen {
          assert cs[0] in Dedup(cs, seen);
        }
      }
    }
  }

  /** No two edges share an unordered pair. */
  predicate DistinctPairs(es: seq<Edge>)
  {
    forall i, j :: 0 <= i < j < |es| ==> Key(es[i]) != Key(es[j])
  }

  /** Every edge is the earliest candidate of its pair. */
  predicate FirstProposals(cs: seq<Edge>, es: seq<Edge>)
  {
    forall i :: 0 <= i < |es| ==>
      exists j :: 0 <= j < |cs| && cs[j] == es[i] && forall j' :: 0 <= j' < j ==> Key(cs[j']) != Key(cs[j])
  }

  /** Every candidate's pair is represented by an edge. */
  predicate CoversPairs(cs: seq<Edge>, es: seq<Edge>)
  {
    forall c :: c in cs ==> exists e :: e in es && Key(e) == Key(c)
  }

  /** The graph's edges: no two share an unordered pair; each runs from a
      retrieved document to another requested document; each is the first
      proposal of its pair, so it carries that hit's score; and every proposed
      pair is represented. */
  lemma GraphEdgesProperties(store: Store, docIds: seq<Id>, threshold: real, index: SearchRequest -> seq<Hit>)
    ensures DistinctPairs(GraphEdges(store, docIds, threshold, index))
    ensures forall e :: e in GraphEdges(store, docIds, threshold, index) ==>
              e.source != e.target && e.source in store && e.source in docIds && e.target in docIds
    ensures FirstProposals(Candidates(store, Retrieved(store, docIds), docIds, threshold, index),
                           GraphEdges(store, docIds, threshold, index))
    ensures CoversPairs(Candidates(store, Retrieved(store, docIds), docIds, threshold, index),
                        GraphEdges(store, docIds, threshold, index))
  {
    var cs := Candidates(store, Retrieved(store, docIds), docIds, threshold, index);
    var es := GraphEdges(store, docIds, threshold, index);
    assert es == Dedup(cs, {});
    assert DistinctPairs(es) && forall e :: e in es ==> e in cs by {
      DedupDistinct(cs, {});
    }
    assert FirstProposals(cs, es) by {
      DedupFirst(cs, {});
    }
    assert CoversPairs(cs, es) by {
      DedupComplete(cs, {});
    }
  }
}
