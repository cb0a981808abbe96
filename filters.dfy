/** The search filter: the conjunction of field conditions `search` builds
    from its optional arguments, and what it means for a payload to pass it. */
module Filters {
  import opened Values

  /** `FieldCondition(field_name=key, match=MatchValue(value=value))`. */
  datatype Condition = FieldCondition(key: string, value: string)

  /** `Filter(must=conditions)`: every condition must hold. */
  datatype Filter = Filter(must: seq<Condition>)

  /** Python truthiness of an optional string argument. */
  predicate Given(o: Option<string>)
  {
    o.Some? && o.value != ""
  }

  /** Python truthiness of an optional list argument. */
  predicate GivenTags(o: Option<seq<string>>)
  {
    o.Some? && o.value != []
  }

  /** One "tags" condition per requested tag, in order. */
  function TagConditions(tags: seq<string>): seq<Condition>
  {
    if tags == [] then []
    else TagConditions(tags[..|tags| - 1]) + [FieldCondition("tags", tags[|tags| - 1])]
  }

  /** One "tags" condition per requested tag, in the order of the tags. */
  lemma {:induction false} TagConditionsMembers(tags: seq<string>)
    ensures |TagConditions(tags)| == |tags|
    ensures forall k :: 0 <= k < |tags| ==> TagConditions(tags)[k] == FieldCondition("tags", tags[k])
    ensures forall c :: c in TagConditions(tags) <==> c.key == "tags" && c.value in tags
  {
    if tags != [] {
      var init := tags[..|tags| - 1];
      assert tags == init + [tags[|tags| - 1]];
      TagConditionsMembers(init);
    }
  }

  /** The conditions, in the order `search` appends them. */
  function Conditions(category: Option<string>, sourceType: Option<string>, tags: Option<seq<string>>): seq<Condition>
  {
    (if Given(category) then [FieldCondition("category", category.value)] else [])
    + (if Given(sourceType) then [FieldCondition("source_type", sourceType.value)] else [])
    + (if GivenTags(tags) then TagConditions(tags.value) else [])
  }

  /** The filter passed to the index: none at all when there are no conditions. */
  function FilterFor(category: Option<string>, sourceType: Option<string>, tags: Option<seq<string>>): Option<Filter>
  {
    var cs := Conditions(category, sourceType, tags);
    if cs == [] then None else Some(Filter(cs))
  }

  /** A keyword match: the field is that string, or a list holding it. */
  predicate Matches(v: Value, value: string)
  {
    v == Str(value) || (v.Strs? && value in v.items)
  }

  predicate Holds(c: Condition, p: Payload)
  {
    c.key in p && Matches(p[c.key], c.value)
  }

  /** Whether the index may return a point with payload `p` under filter `f`. */
  predicate Admits(f: Option<Filter>, p: Payload)
  {
    f.None? || forall c :: c in f.value.must ==> Holds(c, p)
  }

  predicate HasTag(p: Payload, tag: string)
  {
    "tags" in p && p["tags"].Strs? && tag in p["tags"].items
  }

  /** The documents the caller asked for, stated field by field. */
  predicate Wanted(category: Option<string>, sourceType: Option<string>, tags: Option<seq<string>>, p: Payload)
  {
    && (Given(category) ==> Get(p, "category", Null) == Str(category.value))
    && (Given(sourceType) ==> Get(p, "source_type", Null) == Str(sourceType.value))
    && (GivenTags(tags) ==> forall t :: t in tags.value ==> HasTag(p, t))
  }

  /** No filter is passed exactly when no argument is given. */
  lemma NoFilterWhenNothingGiven(category: Option<string>, sourceType: Option<string>, tags: Option<seq<string>>)
    ensures FilterFor(category, sourceType, tags).None? <==> !Given(category) && !Given(sourceType) && !GivenTags(tags)
  {
    if GivenTags(tags) {
      TagConditionsMembers(tags.value);
      assert FieldCondition("tags", tags.value[0]) in TagConditions(tags.value);
    }
  }

  /** The conditions are exactly the category condition when a category is
      given, the source_type condition when a source type is given, and a
      "tags" condition per requested tag. */
  lemma ConditionsMembers(category: Option<string>, sourceType: Option<string>, tags: Option<seq<string>>)
    ensures forall c :: c in Conditions(category, sourceType, tags) <==>
              || (Given(category) && c == FieldCondition("category", category.value))
              || (Given(sourceType) && c == FieldCondition("source_type", sourceType.value))
              || (GivenTags(tags) && c.key == "tags" && c.value in tags.value)
  {
    if GivenTags(tags) {
      TagConditionsMembers(tags.value);
    }
  }

  /** A stored payload passes the filter iff its category and source_type equal
      the given ones and its tags contain every given tag. */
  lemma FilterSemantics(category: Option<string>, sourceType: Option<string>, tags: Option<seq<string>>, p: Payload)
    requires Schema(p)
    ensures Admits(FilterFor(category, sourceType, tags), p) <==> Wanted(category, sourceType, tags, p)
  {
    var cs := Conditions(category, sourceType, tags);
    NoFilterWhenNothingGiven(category, sourceType, tags);
    ConditionsMembers(category, sourceType, tags);
    if GivenTags(tags) {
      forall t | t in tags.value
        ensures FieldCondition("tags", t) in cs
        ensures Holds(FieldCondition("tags", t), p) <==> HasTag(p, t)
      {
      }
    }
  }

  /** Builds the conditions one by one, as `search` does. */
  method BuildFilter(category: Option<string>, sourceType: Option<string>, tags: Option<seq<string>>)
    returns (f: Option<Filter>)
    ensures f == FilterFor(category, sourceType, tags)
  {
    var conditions: seq<Condition> := [];
    if Given(category) {
      conditions := conditions + [FieldCondition("category", category.value)];
    }
    if Given(sourceType) {
      conditions := conditions + [FieldCondition("source_type", sourceType.value)];
    }
    ghost var fixed := conditions;
    assert fixed == (if Given(category) then [FieldCondition("category", category.value)] else [])
                    + (if Given(sourceType) then [FieldCondition("source_type", sourceType.value)] else []);
    if GivenTags(tags) {
      var ts := tags.value;
      var i := 0;
      while i < |ts|
        invariant 0 <= i <= |ts|
        invariant conditions == fixed + TagConditions(ts[..i])
      {
        assert ts[..i + 1][..i] == ts[..i];
        conditions := conditions + [FieldCondition("tags", ts[i])];
        i := i + 1;
      }
      assert ts[..i] == ts;
    }
    assert conditions == Conditions(category, sourceType, tags);
    f := if conditions == [] then None else Some(Filter(conditions));
  }
}
