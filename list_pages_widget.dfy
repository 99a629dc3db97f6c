/**
 * The value handling shared by the list pages facet widgets: turning a
 * submitted form value into the list of values put in the URL, the preset
 * filter built from it, and the lookup of an active filter by key.
 *
 * The submitted value is what the form state holds under the facet's id
 * (NULL when there is none). Active items are the facet's active filter
 * values, keyed as PHP keys them.
 */
module ListPagesWidget {
  import opened Wrappers
  import opened PhpArrays

  /** The operators of a preset filter. */
  datatype FilterOperator = OrOperator | AndOperator | NotOperator

  /** The default value of a preset filter: its operator and its values. */
  datatype PresetFilterValue = PresetFilterValue(operator: FilterOperator, values: seq<Value>)

  /**
   * `prepareValueForUrl`: nothing for a falsy value, the values of an array
   * re-indexed from 0 in order, and any other value as a one-element list.
   */
  function PrepareValueForUrl(value: Value): (r: seq<Value>)
    ensures |r| == 0 <==> !Truthy(value)
    ensures Truthy(value) && value.Arr? ==>
              |r| == |value.entries| && forall i :: 0 <= i < |r| ==> r[i] == value.entries[i].1
    ensures Truthy(value) && !value.Arr? ==> r == [value]
  {
    if !Truthy(value) then []
    else if value.Arr? then Values(value.entries)
    else [value]
  }

  /** Preparing the list sent to the URL once more, as a PHP list, gives the same list back. */
  lemma PrepareValueForUrlIdempotent(value: Value)
    ensures PrepareValueForUrl(List(PrepareValueForUrl(value))) == PrepareValueForUrl(value)
  {
    var r := PrepareValueForUrl(value);
    if |r| > 0 {
      assert List(r).entries[0] == (IntKey(0), r[0]);
      assert Values(List(r).entries) == r;
    }
  }

  /** Every value of the array reaches the URL list, and nothing else does. */
  lemma PrepareValueForUrlMembers(value: Value, v: Value)
    requires value.Arr? && Truthy(value)
    ensures v in PrepareValueForUrl(value) <==> exists k :: (k, v) in value.entries
  {
    var r := PrepareValueForUrl(value);
    if v in r {
      var i :| 0 <= i < |r| && r[i] == v;
      assert value.entries[i] == (value.entries[i].0, v);
    }
    if exists k :: (k, v) in value.entries {
      var k :| (k, v) in value.entries;
      var i :| 0 <= i < |value.entries| && value.entries[i] == (k, v);
      assert r[i] == v;
    }
  }

  /** `prepareDefaultFilterValue`: an OR filter over the values prepared for the URL. */
  function PrepareDefaultFilterValue(value: Value): (r: PresetFilterValue)
    ensures r.operator == OrOperator
    ensures r.values == PrepareValueForUrl(value)
    ensures r.values == [] <==> !Truthy(value)
  {
    PresetFilterValue(OrOperator, PrepareValueForUrl(value))
  }

  /**
   * `getValueFromActiveFilters`: the active item stored under `key`, read as
   * PHP reads an array with a string key (a canonical decimal names the
   * integer key), or nothing.
   */
  function GetValueFromActiveFilters(activeItems: seq<(Key, string)>, key: string): (r: Option<string>)
    ensures r.Some? <==> NormalizeKey(key) in KeySet(activeItems)
    ensures r.Some? ==> (NormalizeKey(key), r.value) in activeItems
  {
    Get(activeItems, NormalizeKey(key))
  }

  /** In a list of active items, the decimal form of a position finds the item at that position. */
  lemma ActiveFilterAtPosition(activeItems: seq<(Key, string)>, i: nat)
    requires forall j :: 0 <= j < |activeItems| ==> activeItems[j].0 == IntKey(j)
    requires i < |activeItems| <= PHP_INT_MAX
    ensures GetValueFromActiveFilters(activeItems, IntToString(i)) == Some(activeItems[i].1)
  {
    NormalizeIntString(i);
    GetAt(activeItems, i);
  }
}
