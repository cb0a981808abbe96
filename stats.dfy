/** Collection statistics: frequency counters over category, source_type and
    tags of the scanned points. */
module Stats {
  import opened Values
  import opened Index

  datatype CollectionStats = CollectionStats(
    totalDocuments: nat,
    categories: map<string, nat>,
    sourceTypes: map<string, nat>,
    tags: map<string, nat>)

  /** The exception the scan can raise: iterating over a `None` tags value. */
  datatype Error = TagsNotIterable

  datatype Result<T> = Success(value: T) | Failure(error: Error)

  /** The page size of the single scroll the statistics are taken from. */
  const StatsScrollLimit: int := 10000

  /** Python truthiness of a payload value. */
  predicate Truthy(v: Value)
  {
    match v
    case Null => false
    case Num(n) => n != 0.0
    case Str(s) => s != ""
    case Strs(items) => items != []
    case Obj(fields) => fields != map[]
  }

  /** `counter[k] = counter.get(k, 0) + 1`. */
  function Inc(counter: map<string, nat>, k: string): map<string, nat>
  {
    counter[k := (if k in counter then counter[k] else 0) + 1]
  }

  /** A counter fed with `xs` in order. */
  function Tally(xs: seq<string>): map<string, nat>
  {
    if xs == [] then map[] else Inc(Tally(xs[..|xs| - 1]), xs[|xs| - 1])
  }

  /** The counter holds exactly the values fed to it, each with its number of
      occurrences (so every count is positive). */
  lemma {:induction false} TallyCounts(xs: seq<string>)
    ensures forall k :: k in Tally(xs) <==> k in multiset(xs)
    ensures forall k :: k in Tally(xs) ==> Tally(xs)[k] == multiset(xs)[k] > 0
  {
    if xs != [] {
      var init := xs[..|xs| - 1];
      assert xs == init + [xs[|xs| - 1]];
      TallyCounts(init);
    }
  }

  /** The counted value of one field of one payload: present when it is a
      truthy string (a stored category or source_type is a string or None). */
  function Label(p: Payload, key: string): seq<string>
  {
    var v := Get(p, key, Null);
    if Truthy(v) && v.Str? then [v.s] else []
  }

  /** The counted values of one field over a page, in page order. */
  function Labels(page: seq<Point>, key: string): seq<string>
  {
    if page == [] then []
    else Labels(page[..|page| - 1], key) + Label(page[|page| - 1].payload, key)
  }

  /** The number of points of the page whose field `key` is the string `s`. */
  function CountWith(page: seq<Point>, key: string, s: string): nat
  {
    if page == [] then 0
    else CountWith(page[..|page| - 1], key, s) + (if Get(page[|page| - 1].payload, key, Null) == Str(s) then 1 else 0)
  }

  /** One document's label counts `s` once when its field is the non-empty string `s`. */
  lemma LabelMultiplicity(p: Payload, key: string, s: string)
    ensures multiset(Label(p, key))[s] == if s != "" && Get(p, key, Null) == Str(s) then 1 else 0
  {
  }

  /** Each document with a non-empty value counts once under that value; the
      empty string and None are never counted. */
  lemma {:induction false} LabelsCount(page: seq<Point>, key: string, s: string)
    ensures multiset(Labels(page, key))[s] == if s == "" then 0 else CountWith(page, key, s)
  {
    if page != [] {
      var init := page[..|page| - 1];
      var last := page[|page| - 1].payload;
      LabelsCount(init, key, s);
      LabelMultiplicity(last, key, s);
      assert multiset(Labels(page, key)) == multiset(Labels(init, key)) + multiset(Label(last, key));
    }
  }

  /** One more point adds its label after those of the points before it. */
  lemma LabelsStep(page: seq<Point>, i: int, key: string)
    requires 0 <= i < |page|
    ensures Labels(page[..i + 1], key) == Labels(page[..i], key) + Label(page[i].payload, key)
  {
    assert page[..i + 1][..i] == page[..i];
  }

  /** The tags iterated for one payload (absent tags iterate as `[]`). */
  function TagList(p: Payload): seq<string>
  {
    var v := Get(p, "tags", Strs([]));
    if v.Strs? then v.items else []
  }

  predicate TagsIterable(p: Payload)
  {
    Get(p, "tags", Strs([])).Strs?
  }

  /** Every tag occurrence over the page, in page order. */
  function AllTags(page: seq<Point>): seq<string>
  {
    if page == [] then []
    else AllTags(page[..|page| - 1]) + TagList(page[|page| - 1].payload)
  }

  /** The statistics of a scanned page when no tags value is None. */
  function StatsOf(total: nat, page: seq<Point>): CollectionStats
  {
    CollectionStats(total, Tally(Labels(page, "category")), Tally(Labels(page, "source_type")), Tally(AllTags(page)))
  }

  /** A category counter entry is exactly the number of documents in that
      category, and only non-empty categories that occur are counted. */
  lemma CategoryCounts(total: nat, page: seq<Point>, key: string)
    requires key == "category" || key == "source_type"
    ensures var counter := if key == "category" then StatsOf(total, page).categories else StatsOf(total, page).sourceTypes;
            forall s :: (s in counter <==> s != "" && CountWith(page, key, s) > 0)
                     && (s in counter ==> counter[s] == CountWith(page, key, s))
  {
    TallyCounts(Labels(page, key));
    forall s {
      LabelsCount(page, key, s);
    }
  }

  lemma TallySnoc(xs: seq<string>, x: string)
    ensures Tally(xs + [x]) == Inc(Tally(xs), x)
  {
    assert (xs + [x])[..|xs|] == xs;
  }

  /** One more point adds its tags after those of the points before it. */
  lemma AllTagsStep(page: seq<Point>, i: int)
    requires 0 <= i < |page|
    ensures AllTags(page[..i + 1]) == AllTags(page[..i]) + TagList(page[i].payload)
  {
    assert page[..i + 1][..i] == page[..i];
  }

  /** When the tags are a list, the point adds exactly that list. */
  lemma TagsStep(page: seq<Point>, i: int)
    requires 0 <= i < |page|
    requires TagsIterable(page[i].payload)
    ensures AllTags(page[..i + 1]) == AllTags(page[..i]) + Get(page[i].payload, "tags", Strs([])).items
  {
    AllTagsStep(page, i);
  }

  /** The tags counter holds exactly the tags that occur on the page, each
      with its number of occurrences over all documents. */
  lemma TagCounts(total: nat, page: seq<Point>)
    ensures var counter := StatsOf(total, page).tags;
            forall t :: (t in counter <==> t in multiset(AllTags(page)))
                     && (t in counter ==> counter[t] == multiset(AllTags(page))[t])
  {
    TallyCounts(AllTags(page));
  }

  /** The tags a counter is fed from documents tagged ["a", "b"], ["a"]
      and ["b", "c"] give a: 2, b: 2, c: 1. */
  lemma TagTallyExample()
    ensures Tally(["a", "b"] + ["a"] + ["b", "c"]) == map["a" := 2, "b" := 2, "c" := 1]
  {
    TallySnoc([], "a");
    assert [] + ["a"] == ["a"];
    assert Tally(["a"]) == map["a" := 1];
    TallySnoc(["a"], "b");
    assert ["a"] + ["b"] == ["a", "b"];
    assert Tally(["a", "b"]) == map["a" := 1, "b" := 1];
    TallySnoc(["a", "b"], "a");
    assert ["a", "b"] + ["a"] == ["a", "b", "a"];
    assert Tally(["a", "b", "a"]) == map["a" := 2, "b" := 1];
    TallySnoc(["a", "b", "a"], "b");
    assert ["a", "b", "a"] + ["b"] == ["a", "b", "a", "b"];
    assert Tally(["a", "b", "a", "b"]) == map["a" := 2, "b" := 2];
    TallySnoc(["a", "b", "a", "b"], "c");
    assert ["a", "b", "a", "b"] + ["c"] == ["a", "b"] + ["a"] + ["b", "c"];
  }

  /** A page of three documents tagged ["a", "b"], ["a"] and ["b", "c"] has
      the tag counts a: 2, b: 2, c: 1. */
  lemma TagStatsExample(total: nat, x: Id, y: Id, z: Id)
    ensures var page := [Point(x, map["tags" := Strs(["a", "b"])]),
                         Point(y, map["tags" := Strs(["a"])]),
                         Point(z, map["tags" := Strs(["b", "c"])])];
            StatsOf(total, page).tags == map["a" := 2, "b" := 2, "c" := 1]
  {
    var page := [Point(x, map["tags" := Strs(["a", "b"])]),
                 Point(y, map["tags" := Strs(["a"])]),
                 Point(z, map["tags" := Strs(["b", "c"])])];
    assert page[..0] == [];
    AllTagsStep(page, 0);
    AllTagsStep(page, 1);
    AllTagsStep(page, 2);
    assert page[..3] == page;
    assert AllTags(page) == ["a", "b"] + ["a"] + ["b", "c"];
    TagTallyExample();
  }

  /** The inner loop of the scan: counts each tag of one document in order. */
  method CountTags(counter: map<string, nat>, ts: seq<string>, ghost before: seq<string>)
    returns (counter': map<string, nat>)
    requires counter == Tally(before)
    ensures counter' == Tally(before + ts)
  {
    counter' := counter;
    assert before + ts[..0] == before;
    var j := 0;
    while j < |ts|
      invariant 0 <= j <= |ts|
      invariant counter' == Tally(before + ts[..j])
    {
      assert before + ts[..j + 1] == (before + ts[..j]) + [ts[j]];
      TallySnoc(before + ts[..j], ts[j]);
      counter' := Inc(counter', ts[j]);
      j := j + 1;
    }
    assert ts[..j] == ts;
  }

  /** `if v: counter[v] = counter.get(v, 0) + 1` for a category or source_type value. */
  method CountLabel(counter: map<string, nat>, v: Value, ghost before: seq<string>)
    returns (counter': map<string, nat>)
    requires counter == Tally(before)
    requires v.Null? || v.Str?
    ensures counter' == Tally(before + (if Truthy(v) then [v.s] else []))
  {
    counter' := counter;
    if Truthy(v) {
      TallySnoc(before, v.s);
      counter' := Inc(counter, v.s);
    } else {
      assert before + [] == before;
    }
  }

  /** The body of the scan for the i-th point: counts its category, its
      source_type and its tags; reports whether its tags could be iterated. */
  method CountPoint(total: nat, page: seq<Point>, i: int,
                    categories: map<string, nat>, sourceTypes: map<string, nat>, tags: map<string, nat>)
    returns (iterable: bool, categories': map<string, nat>, sourceTypes': map<string, nat>, tags': map<string, nat>)
    requires 0 <= i < |page| && Schema(page[i].payload)
    requires CollectionStats(total, categories, sourceTypes, tags) == StatsOf(total, page[..i])
    ensures iterable == TagsIterable(page[i].payload)
    ensures iterable ==> CollectionStats(total, categories', sourceTypes', tags') == StatsOf(total, page[..i + 1])
  {
    var p := page[i].payload;
    LabelsStep(page, i, "category");
    LabelsStep(page, i, "source_type");
    categories' := CountLabel(categories, Get(p, "category", Null), Labels(page[..i], "category"));
    sourceTypes' := CountLabel(sourceTypes, Get(p, "source_type", Null), Labels(page[..i], "source_type"));
    var tagValue := Get(p, "tags", Strs([]));
    if !tagValue.Strs? {
      return false, categories', sourceTypes', tags;
    }
    TagsStep(page, i);
    tags' := CountTags(tags, tagValue.items, AllTags(page[..i]));
    iterable := true;
  }

  /** Every document of the page has iterable tags. */
  predicate AllIterable(page: seq<Point>)
  {
    page == [] || (AllIterable(page[..|page| - 1]) && TagsIterable(page[|page| - 1].payload))
  }

  lemma {:induction false} AllIterableMeans(page: seq<Point>)
    ensures AllIterable(page) <==> forall k :: 0 <= k < |page| ==> TagsIterable(page[k].payload)
  {
    if page != [] {
      var init := page[..|page| - 1];
      AllIterableMeans(init);
      assert forall k :: 0 <= k < |init| ==> init[k] == page[k];
    }
  }

  lemma AllIterableStep(page: seq<Point>, i: int)
    requires 0 <= i < |page|
    ensures AllIterable(page[..i + 1]) == (AllIterable(page[..i]) && TagsIterable(page[i].payload))
  {
    assert page[..i + 1][..i] == page[..i];
  }

  /** The scan of get_collection_stats over one page: fails exactly when some
      document's tags are None, and otherwise yields the counters of the page. */
  method CountPage(total: nat, page: seq<Point>) returns (r: Result<CollectionStats>)
    requires forall k :: 0 <= k < |page| ==> Schema(page[k].payload)
    ensures r.Failure? <==> exists k :: 0 <= k < |page| && !TagsIterable(page[k].payload)
    ensures r.Success? ==> r.value == StatsOf(total, page)
  {
    var categories: map<string, nat> := map[];
    var sourceTypes: map<string, nat> := map[];
    var tags: map<string, nat> := map[];
    var i := 0;
    assert page[..0] == [];
    while i < |page|
      invariant 0 <= i <= |page|
      invariant CollectionStats(total, categories, sourceTypes, tags) == StatsOf(total, page[..i])
      invariant AllIterable(page[..i])
    {
      var iterable;
      iterable, categories, sourceTypes, tags := CountPoint(total, page, i, categories, sourceTypes, tags);
      if !iterable {
        return Failure(TagsNotIterable);
      }
      AllIterableStep(page, i);
      i := i + 1;
    }
    assert page[..i] == page;
    AllIterableMeans(page);
    r := Success(CollectionStats(total, categories, sourceTypes, tags));
  }
}
