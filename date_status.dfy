/**
 * The date-status facet query type (`oe_list_pages_date_status_query_type`).
 *
 * `Execute` turns the facet's active items into one OR condition group over
 * the facet's field and a sort directive per item; `Build` sorts the raw
 * result buckets into the two options "past" and "coming" and hands the two
 * counted results to the facet.
 *
 * The search query, the facet and the plugin are objects the source updates
 * in place, so they are classes here. The query only records what is done to
 * it (condition groups and sort calls, in order); how the search backend
 * evaluates them is not part of this model, except for `Satisfies`, which says
 * what a single condition means and is used to compare `Execute` with `Build`.
 * The current time is the parameter `now` (a Unix timestamp).
 *
 * Three quirks of the source are kept as written and marked QUIRK below; the
 * intended behaviour is stated beside them as `Intended...` definitions.
 */
module DateStatus {
  import opened Wrappers

  const PAST: string := "past"
  const UPCOMING: string := "coming"

  /** One `addCondition(field, value, operator)` call. */
  datatype Condition = Condition(field: string, value: int, operator: string)

  /** A condition group as added to the query: conjunction, tags, and its conditions in order. */
  datatype ConditionGroup = ConditionGroup(conjunction: string, tags: seq<string>, conditions: seq<Condition>)

  /** One `sort(field, direction)` call. */
  datatype SortDirective = SortDirective(field: string, direction: string)

  /** The processing levels of a search query. */
  datatype ProcessingLevel = ProcessingNone | ProcessingBasic | ProcessingFull

  /** The options the base query type derives from the facet (opaque here). */
  datatype FacetOptions = FacetOptions(entries: seq<(string, string)>)

  /** A raw result bucket: `filter` is the bucket's timestamp, `count` the number of items in it. */
  datatype RawResult = RawResult(filter: int, count: nat)

  /** A facet result: raw value, display label and count. */
  datatype FacetResult = FacetResult(raw: string, display: string, count: int)

  /** The search query, as far as this plugin changes it. */
  class Query {
    const processingLevel: ProcessingLevel
    /** `$options['search_api_facets']`, keyed by field identifier. */
    var facetOptions: map<string, FacetOptions>
    var conditionGroups: seq<ConditionGroup>
    var sorts: seq<SortDirective>

    constructor (level: ProcessingLevel)
      ensures processingLevel == level
      ensures facetOptions == map[] && conditionGroups == [] && sorts == []
    {
      processingLevel := level;
      facetOptions := map[];
      conditionGroups := [];
      sorts := [];
    }

    method Sort(field: string, direction: string)
      modifies this
      ensures sorts == old(sorts) + [SortDirective(field, direction)]
      ensures conditionGroups == old(conditionGroups) && facetOptions == old(facetOptions)
    {
      sorts := sorts + [SortDirective(field, direction)];
    }

    method AddConditionGroup(group: ConditionGroup)
      modifies this
      ensures conditionGroups == old(conditionGroups) + [group]
      ensures sorts == old(sorts) && facetOptions == old(facetOptions)
    {
      conditionGroups := conditionGroups + [group];
    }

    method SetFacetOptions(field: string, options: FacetOptions)
      modifies this
      ensures facetOptions == old(facetOptions)[field := options]
      ensures sorts == old(sorts) && conditionGroups == old(conditionGroups)
    {
      facetOptions := facetOptions[field := options];
    }
  }

  /** The facet this query type serves. */
  class Facet {
    const fieldIdentifier: string
    var activeItems: seq<string>
    var results: seq<FacetResult>

    constructor (field: string, active: seq<string>)
      ensures fieldIdentifier == field && activeItems == active && results == []
    {
      fieldIdentifier := field;
      activeItems := active;
      results := [];
    }

    method SetResults(rs: seq<FacetResult>)
      modifies this
      ensures results == rs && activeItems == old(activeItems)
    {
      results := rs;
    }
  }

  // -----------------------------------------------------------------------
  // What Execute adds to the query
  // -----------------------------------------------------------------------

  /**
   * The condition added for one active value. QUIRK (line 97): the second
   * branch is guarded by the assignment `$value = self::UPCOMING`, which is
   * always truthy, so every value other than "past" gets the `>` condition.
   */
  function ConditionFor(field: string, value: string, now: int): (r: Condition)
    ensures r.field == field && r.value == now
    ensures r.operator == "<=" || r.operator == ">"
    ensures r.operator == "<=" <==> value == PAST
  {
    if value == PAST then Condition(field, now, "<=") else Condition(field, now, ">")
  }

  /** The sort call made for one active value (same quirk as `ConditionFor`). */
  function SortFor(field: string, value: string): (r: SortDirective)
    ensures r.field == field
    ensures r.direction == "DESC" || r.direction == "ASC"
    ensures r.direction == "DESC" <==> value == PAST
  {
    if value == PAST then SortDirective(field, "DESC") else SortDirective(field, "ASC")
  }

  function ConditionsFor(field: string, items: seq<string>, now: int): seq<Condition> {
    seq(|items|, j requires 0 <= j < |items| => ConditionFor(field, items[j], now))
  }

  function SortsFor(field: string, items: seq<string>): seq<SortDirective> {
    seq(|items|, j requires 0 <= j < |items| => SortFor(field, items[j]))
  }

  /** The facet's tag on its condition group. */
  function FacetTag(field: string): string {
    "facet:" + field
  }

  /** The condition groups Execute adds: none without active items, else one OR group. */
  function FilterGroups(field: string, items: seq<string>, now: int): seq<ConditionGroup> {
    if |items| == 0 then []
    else [ConditionGroup("OR", [FacetTag(field)], ConditionsFor(field, items, now))]
  }

  /** What a condition means for an item whose field holds timestamp `t`. */
  predicate Satisfies(c: Condition, t: int) {
    (c.operator == "<=" ==> t <= c.value) && (c.operator == ">" ==> t > c.value)
  }

  /**
   * With active items, exactly one OR group tagged with the facet is added;
   * it holds one condition per active item, "past" giving `field <= now`
   * and every other value `field > now`; the sorts follow the same split.
   */
  lemma FilterGroupsShape(field: string, items: seq<string>, now: int)
    ensures |items| == 0 ==> FilterGroups(field, items, now) == [] && SortsFor(field, items) == []
    ensures |items| > 0 ==>
      var gs := FilterGroups(field, items, now);
      && |gs| == 1
      && gs[0].conjunction == "OR" && gs[0].tags == ["facet:" + field]
      && |gs[0].conditions| == |items|
      && forall j :: 0 <= j < |items| ==>
           gs[0].conditions[j] == (if items[j] == "past" then Condition(field, now, "<=") else Condition(field, now, ">"))
    ensures |SortsFor(field, items)| == |items|
    ensures forall j :: 0 <= j < |items| ==>
      SortsFor(field, items)[j] == SortDirective(field, if items[j] == "past" then "DESC" else "ASC")
  {
  }

  // -----------------------------------------------------------------------
  // What Build counts
  // -----------------------------------------------------------------------

  /** The options in display order, with their labels (`defaultOptions`). */
  function DefaultOptions(): (r: seq<(string, string)>)
    ensures |r| == 2 && r[0].0 == PAST && r[1].0 == UPCOMING && r[0].0 != r[1].0
  {
    [(PAST, "Past"), (UPCOMING, "Upcoming")]
  }

  /**
   * The option a bucket is counted under. QUIRK (line 144): a bucket earlier
   * than now is counted as upcoming and one at or after now as past.
   */
  function StatusOf(filter: int, now: int): (r: string)
    ensures r == PAST || r == UPCOMING
    ensures r == UPCOMING <==> filter < now
  {
    if now > filter then UPCOMING else PAST
  }

  /**
   * How many buckets are counted under `status`. QUIRK (line 144): each bucket
   * adds 1, whatever its own item count.
   */
  function Count(rs: seq<RawResult>, now: int, status: string): (r: nat)
    ensures r <= |rs|
  {
    if |rs| == 0 then 0
    else Count(rs[..|rs| - 1], now, status) + (if StatusOf(rs[|rs| - 1].filter, now) == status then 1 else 0)
  }

  /** The two results Build hands to the facet. */
  function BuildResults(rs: seq<RawResult>, now: int): (r: seq<FacetResult>)
    ensures |r| == 2 && r[0].count + r[1].count == |rs|
  {
    CountsPartition(rs, now);
    seq(|DefaultOptions()|, k requires 0 <= k < |DefaultOptions()| =>
      FacetResult(DefaultOptions()[k].0, DefaultOptions()[k].1, Count(rs, now, DefaultOptions()[k].0)))
  }

  /** Every bucket is counted under exactly one of the two options. */
  lemma {:induction false} CountsPartition(rs: seq<RawResult>, now: int)
    ensures Count(rs, now, PAST) + Count(rs, now, UPCOMING) == |rs|
  {
    if |rs| > 0 {
      CountsPartition(rs[..|rs| - 1], now);
    }
  }

  /** The bucket positions whose status is `status`. */
  function Positions(rs: seq<RawResult>, now: int, status: string): set<int> {
    set i | 0 <= i < |rs| && StatusOf(rs[i].filter, now) == status
  }

  /** The positions of a run of buckets are those of all but its last, plus the last when it matches. */
  lemma PositionsStep(rs: seq<RawResult>, now: int, status: string)
    requires |rs| > 0
    ensures var n := |rs| - 1;
            && n !in Positions(rs[..n], now, status)
            && Positions(rs, now, status) ==
                 Positions(rs[..n], now, status) + (if StatusOf(rs[n].filter, now) == status then {n} else {})
  {
    var n := |rs| - 1;
    var p := rs[..n];
    forall i | 0 <= i < n
      ensures p[i] == rs[i]
    {
    }
  }

  /** `Count` is the number of bucket positions whose status is `status`. */
  lemma {:induction false} CountIsCardinality(rs: seq<RawResult>, now: int, status: string)
    ensures Count(rs, now, status) == |Positions(rs, now, status)|
  {
    if |rs| > 0 {
      CountIsCardinality(rs[..|rs| - 1], now, status);
      PositionsStep(rs, now, status);
    }
  }

  /**
   * Build always yields exactly two results, "past" then "coming", labelled
   * from `DefaultOptions`, with non-negative counts that add up to the number
   * of raw buckets; a bucket is counted as coming exactly when it is earlier
   * than now (as written); without buckets both counts are 0.
   */
  lemma BuildResultsShape(rs: seq<RawResult>, now: int)
    ensures var r := BuildResults(rs, now);
      && |r| == 2
      && r[0].raw == "past" && r[0].display == "Past"
      && r[1].raw == "coming" && r[1].display == "Upcoming"
      && r[0].count >= 0 && r[1].count >= 0
      && r[0].count + r[1].count == |rs|
      && r[1].count == |set i | 0 <= i < |rs| && rs[i].filter < now|
      && r[0].count == |set i | 0 <= i < |rs| && rs[i].filter >= now|
      && (rs == [] ==> r[0].count == 0 && r[1].count == 0)
  {
    CountsPartition(rs, now);
    CountIsCardinality(rs, now, UPCOMING);
    CountIsCardinality(rs, now, PAST);
    assert (set i | 0 <= i < |rs| && StatusOf(rs[i].filter, now) == UPCOMING) == (set i | 0 <= i < |rs| && rs[i].filter < now);
    assert (set i | 0 <= i < |rs| && StatusOf(rs[i].filter, now) == PAST) == (set i | 0 <= i < |rs| && rs[i].filter >= now);
  }

  // -----------------------------------------------------------------------
  // The plugin
  // -----------------------------------------------------------------------

  class DateStatusQueryType {
    /** The query to alter; null when there is none. */
    const query: Query?
    const facet: Facet
    /** What the base class's `getFacetOptions()` returns for this facet. */
    const facetOptions: FacetOptions
    /** The raw result buckets the backend returned for this facet. */
    var results: seq<RawResult>

    constructor (q: Query?, f: Facet, options: FacetOptions, rs: seq<RawResult>)
      ensures query == q && facet == f && facetOptions == options && results == rs
    {
      query := q;
      facet := f;
      facetOptions := options;
      results := rs;
    }

    /**
     * Adds the facet's filter to the query: nothing happens without a query;
     * a full-processing query gets the facet options under the field; with
     * active items one OR group tagged with the facet is added (see
     * `FilterGroupsShape`) and one sort call is made per active item.
     */
    method Execute(now: int)
      modifies query
      ensures query != null ==>
        && query.facetOptions == (if query.processingLevel == ProcessingFull
                                  then old(query.facetOptions)[facet.fieldIdentifier := facetOptions]
                                  else old(query.facetOptions))
        && query.conditionGroups == old(query.conditionGroups) + FilterGroups(facet.fieldIdentifier, facet.activeItems, now)
        && query.sorts == old(query.sorts) + SortsFor(facet.fieldIdentifier, facet.activeItems)
    {
      var q := query;
      if q == null {
        return;
      }
      var field := facet.fieldIdentifier;
      if q.processingLevel == ProcessingFull {
        q.SetFacetOptions(field, facetOptions);
      }
      var activeItems := facet.activeItems;
      if |activeItems| > 0 {
        var conditions: seq<Condition> := [];
        var i := 0;
        while i < |activeItems|
          invariant 0 <= i <= |activeItems|
          invariant conditions == ConditionsFor(field, activeItems[..i], now)
          invariant q.sorts == old(q.sorts) + SortsFor(field, activeItems[..i])
          invariant q.conditionGroups == old(q.conditionGroups)
          invariant q.facetOptions == (if q.processingLevel == ProcessingFull
                                       then old(q.facetOptions)[field := facetOptions]
                                       else old(q.facetOptions))
        {
          var value := activeItems[i];
          if value == PAST {
            conditions := conditions + [Condition(field, now, "<=")];
            q.Sort(field, "DESC");
          } else {
            // QUIRK (line 97): `elseif ($value = self::UPCOMING)` always holds.
            conditions := conditions + [Condition(field, now, ">")];
            q.Sort(field, "ASC");
          }
          i := i + 1;
        }
        assert activeItems[..i] == activeItems;
        q.AddConditionGroup(ConditionGroup("OR", [FacetTag(field)], conditions));
      } else {
        assert SortsFor(field, activeItems) == [];
      }
    }

    /**
     * Counts the raw buckets into "past" and "coming" (as written, see
     * `StatusOf` and `Count`) and sets the two results on the facet, in the
     * order of `DefaultOptions`; see `BuildResultsShape`.
     */
    method Build(now: int) returns (f: Facet)
      modifies facet
      ensures f == facet
      ensures facet.results == BuildResults(results, now)
      ensures facet.activeItems == old(facet.activeItems)
    {
      var count: map<string, int> := map[UPCOMING := 0, PAST := 0];
      var rs := results;
      if |rs| > 0 {
        var i := 0;
        while i < |rs|
          invariant 0 <= i <= |rs|
          invariant count.Keys == {UPCOMING, PAST}
          invariant count[PAST] == Count(rs[..i], now, PAST)
          invariant count[UPCOMING] == Count(rs[..i], now, UPCOMING)
        {
          var resultFilter := rs[i].filter;
          assert rs[..i + 1][..i] == rs[..i];
          // QUIRK (line 144): earlier than now counts as upcoming; +1 per bucket.
          if now > resultFilter {
            count := count[UPCOMING := count[UPCOMING] + 1];
          } else {
            count := count[PAST := count[PAST] + 1];
          }
          i := i + 1;
        }
        assert rs[..i] == rs;
      }
      var options := DefaultOptions();
      var facetResults: seq<FacetResult> := [];
      var k := 0;
      while k < |options|
        invariant 0 <= k <= |options|
        invariant |facetResults| == k
        invariant forall j :: 0 <= j < k ==> facetResults[j] == BuildResults(rs, now)[j]
      {
        var raw := options[k].0;
        var itemCount := if raw in count then count[raw] else 0;
        facetResults := facetResults + [FacetResult(raw, options[k].1, itemCount)];
        k := k + 1;
      }
      facet.SetResults(facetResults);
      f := facet;
    }
  }

  // -----------------------------------------------------------------------
  // The intended behaviour beside the three quirks
  // -----------------------------------------------------------------------

  /** The condition with `==` on line 97: a value that is neither option adds nothing. */
  function IntendedConditionFor(field: string, value: string, now: int): (r: Option<Condition>)
    ensures r.Some? <==> value == PAST || value == UPCOMING
    ensures r.Some? ==> r.value == ConditionFor(field, value, now)
  {
    if value == PAST then Some(Condition(field, now, "<="))
    else if value == UPCOMING then Some(Condition(field, now, ">"))
    else None
  }

  /** The sort call with `==` on line 97: a value that is neither option adds no sort. */
  function IntendedSortFor(field: string, value: string): (r: Option<SortDirective>)
    ensures r.Some? <==> value == PAST || value == UPCOMING
    ensures r.Some? ==> r.value == SortFor(field, value)
  {
    if value == PAST then Some(SortDirective(field, "DESC"))
    else if value == UPCOMING then Some(SortDirective(field, "ASC"))
    else None
  }

  /** A value that is neither option still gets the `>` condition and an ASC sort as written; intended, neither. */
  lemma AssignmentQuirk(field: string, now: int)
    ensures ConditionFor(field, "ongoing", now) == Condition(field, now, ">")
    ensures SortFor(field, "ongoing") == SortDirective(field, "ASC")
    ensures IntendedConditionFor(field, "ongoing", now) == None
    ensures IntendedSortFor(field, "ongoing") == None
  {
  }

  /** The status with the comparison the right way round: at or before now is past. */
  function IntendedStatusOf(filter: int, now: int): (r: string)
    ensures r == PAST || r == UPCOMING
    ensures r == PAST <==> filter <= now
  {
    if filter <= now then PAST else UPCOMING
  }

  /**
   * With the intended status, a bucket is counted under exactly the option
   * whose Execute condition it satisfies, so the counts describe what
   * selecting the option would return.
   */
  lemma IntendedStatusMatchesExecute(field: string, filter: int, now: int)
    ensures Satisfies(ConditionFor(field, IntendedStatusOf(filter, now), now), filter)
    ensures forall v :: v in {PAST, UPCOMING} && v != IntendedStatusOf(filter, now) ==>
              !Satisfies(ConditionFor(field, v, now), filter)
  {
  }

  /** As written, a bucket one second before now is counted as coming, which the coming condition rejects. */
  lemma InvertedStatusQuirk(field: string, now: int)
    ensures StatusOf(now - 1, now) == UPCOMING
    ensures !Satisfies(ConditionFor(field, UPCOMING, now), now - 1)
    ensures IntendedStatusOf(now - 1, now) == PAST
  {
  }

  /** The number of items in the buckets counted under `status` (intended: the bucket counts add up). */
  function IntendedCount(rs: seq<RawResult>, now: int, status: string): (r: nat)
    ensures r <= TotalItems(rs)
  {
    if |rs| == 0 then 0
    else IntendedCount(rs[..|rs| - 1], now, status)
         + (if IntendedStatusOf(rs[|rs| - 1].filter, now) == status then rs[|rs| - 1].count else 0)
  }

  /** The number of items in all buckets. */
  function TotalItems(rs: seq<RawResult>): nat {
    if |rs| == 0 then 0 else TotalItems(rs[..|rs| - 1]) + rs[|rs| - 1].count
  }

  /** The intended counts cover every item exactly once. */
  lemma {:induction false} IntendedCountsPartition(rs: seq<RawResult>, now: int)
    ensures IntendedCount(rs, now, PAST) + IntendedCount(rs, now, UPCOMING) == TotalItems(rs)
  {
    if |rs| > 0 {
      IntendedCountsPartition(rs[..|rs| - 1], now);
    }
  }

  /** As written, one bucket of five items at now yields a past count of 1. */
  lemma BucketCountQuirk(now: int)
    ensures Count([RawResult(now, 5)], now, PAST) == 1
    ensures IntendedCount([RawResult(now, 5)], now, PAST) == 5
  {
    assert [RawResult(now, 5)][..0] == [];
  }
}
