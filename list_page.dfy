/**
 * The list page entity meta relation: the form that chooses a list page's
 * source (entity type and bundle) and its exposed filters, and the rules
 * by which the submitted values are stored on the list page's entity meta.
 *
 * The entity meta's wrapper is a class holding its source and its
 * configuration; the host entity records the entity metas attached to it.
 * Entity type definitions, bundle info, the list source factory and the
 * listeners of the two alter events are parameters.
 *
 * A form is a nested PHP array (`Value`); passed by reference in PHP, it is
 * passed in and returned here.
 */
module ListPage {
  import opened Wrappers
  import opened PhpArrays

  // -----------------------------------------------------------------------
  // The entity meta wrapper and the host entity
  // -----------------------------------------------------------------------

  /** The list page wrapper of an entity meta: its source and its configuration. */
  class ListPageWrapper {
    var sourceEntityType: Option<string>
    var sourceEntityBundle: Option<string>
    var configuration: seq<(Key, Value)>

    /** A new entity meta has no source and an empty configuration. */
    constructor ()
      ensures sourceEntityType.None? && sourceEntityBundle.None? && configuration == []
    {
      sourceEntityType := None;
      sourceEntityBundle := None;
      configuration := [];
    }

    /** `setSource`: records the entity type and the bundle; the configuration is kept. */
    method SetSource(entityType: string, bundle: Option<string>)
      modifies this
      ensures sourceEntityType == Some(entityType) && sourceEntityBundle == bundle
      ensures configuration == old(configuration)
    {
      sourceEntityType := Some(entityType);
      sourceEntityBundle := bundle;
    }

    /** `setConfiguration`: replaces the configuration; the source is kept. */
    method SetConfiguration(newConfiguration: seq<(Key, Value)>)
      modifies this
      ensures configuration == newConfiguration
      ensures sourceEntityType == old(sourceEntityType) && sourceEntityBundle == old(sourceEntityBundle)
    {
      configuration := newConfiguration;
    }
  }

  /** The host entity: the entity metas attached to its `emr_entity_metas` field, in order. */
  class HostEntity {
    var attachedMetas: seq<ListPageWrapper>

    constructor ()
      ensures attachedMetas == []
    {
      attachedMetas := [];
    }

    method Attach(entityMeta: ListPageWrapper)
      modifies this
      ensures attachedMetas == old(attachedMetas) + [entityMeta]
    {
      attachedMetas := attachedMetas + [entityMeta];
    }
  }

  // -----------------------------------------------------------------------
  // submit
  // -----------------------------------------------------------------------

  /** The configuration key of the exposed filters. */
  const ExposedFiltersKey: Key := StrKey("exposed_filters")

  /**
   * The configuration stored by `submit`: the submitted exposed filters
   * without their falsy entries come first, under `exposed_filters`, and
   * every other key keeps its value.
   */
  function MergedConfiguration(configuration: seq<(Key, Value)>, selected: seq<(Key, Value)>): (r: seq<(Key, Value)>)
    ensures |r| > 0 && r[0] == (ExposedFiltersKey, Arr(FilterTruthy(selected)))
    ensures Get(r, ExposedFiltersKey) == Some(Arr(FilterTruthy(selected)))
    ensures forall k :: k != ExposedFiltersKey ==> Get(r, k) == Get(configuration, k)
    ensures KeySet(r) == KeySet(configuration) + {ExposedFiltersKey}
  {
    Union([(ExposedFiltersKey, Arr(FilterTruthy(selected)))], configuration)
  }

  /** Submitting the same exposed filters again leaves the configuration as it is. */
  lemma MergedConfigurationIdempotent(configuration: seq<(Key, Value)>, selected: seq<(Key, Value)>)
    ensures MergedConfiguration(MergedConfiguration(configuration, selected), selected)
         == MergedConfiguration(configuration, selected)
  {
    UnionIdempotent([(ExposedFiltersKey, Arr(FilterTruthy(selected)))], configuration);
  }

  /** The submitted entity type or bundle counts as given when it is set and truthy. */
  predicate Given(formValue: Option<string>) {
    formValue.Some? && TruthyString(formValue.value)
  }

  /**
   * `submit`: without a truthy entity type and bundle nothing changes;
   * otherwise the entity meta takes the submitted source and the merged
   * configuration and is attached to the host entity.
   */
  method Submit(
    formEntityType: Option<string>,
    formBundle: Option<string>,
    exposedFilters: seq<(Key, Value)>,
    entityMeta: ListPageWrapper,
    hostEntity: HostEntity)
    modifies entityMeta, hostEntity
    ensures !(Given(formEntityType) && Given(formBundle)) ==>
              && entityMeta.sourceEntityType == old(entityMeta.sourceEntityType)
              && entityMeta.sourceEntityBundle == old(entityMeta.sourceEntityBundle)
              && entityMeta.configuration == old(entityMeta.configuration)
              && hostEntity.attachedMetas == old(hostEntity.attachedMetas)
    ensures Given(formEntityType) && Given(formBundle) ==>
              && entityMeta.sourceEntityType == formEntityType
              && entityMeta.sourceEntityBundle == formBundle
              && entityMeta.configuration == MergedConfiguration(old(entityMeta.configuration), exposedFilters)
              && hostEntity.attachedMetas == old(hostEntity.attachedMetas) + [entityMeta]
  {
    if !Given(formEntityType) || !Given(formBundle) {
      return;
    }
    entityMeta.SetSource(formEntityType.value, formBundle);
    var selectedFilters := FilterTruthy(exposedFilters);
    entityMeta.SetConfiguration(Union([(ExposedFiltersKey, Arr(selectedFilters))], entityMeta.configuration));
    hostEntity.Attach(entityMeta);
  }

  // -----------------------------------------------------------------------
  // fillDefaultEntityMetaValues
  // -----------------------------------------------------------------------

  /** What the bundle info of an entity type holds for one bundle. */
  datatype BundleInfo = BundleInfo(bundleLabel: string)

  /** `key($bundles)` on a freshly returned array: its first key, or NULL when it is empty. */
  function FirstKey<V(!new)>(a: seq<(string, V)>): (r: Option<string>)
    ensures r.None? <==> |a| == 0
    ensures r.Some? ==> r.value == a[0].0 && r.value in KeySet(a)
  {
    if |a| == 0 then None else Some(a[0].0)
  }

  /**
   * `fillDefaultEntityMetaValues`: the source becomes the `node` entity type
   * with its first bundle (none when there is no node bundle); the
   * configuration is kept.
   */
  method FillDefaultEntityMetaValues(nodeBundles: seq<(string, BundleInfo)>, entityMeta: ListPageWrapper)
    modifies entityMeta
    ensures entityMeta.sourceEntityType == Some("node")
    ensures entityMeta.sourceEntityBundle == FirstKey(nodeBundles)
    ensures |nodeBundles| > 0 ==> entityMeta.sourceEntityBundle == Some(nodeBundles[0].0)
    ensures entityMeta.configuration == old(entityMeta.configuration)
  {
    entityMeta.SetSource("node", FirstKey(nodeBundles));
  }

  // -----------------------------------------------------------------------
  // getEntityTypeOptions and getBundleOptions
  // -----------------------------------------------------------------------

  /** What the entity type manager's definitions tell about one entity type. */
  datatype EntityTypeDefinition = EntityTypeDefinition(isContentEntityType: bool, typeLabel: string)

  /** Keeps the content entity types, with their labels. */
  function ContentTypeSelector(): (string, EntityTypeDefinition) -> Option<string> {
    (id: string, definition: EntityTypeDefinition) =>
      if definition.isContentEntityType then Some(definition.typeLabel) else None
  }

  /** The labels of the content entity types, keyed by entity type id, before the alter event. */
  function ContentTypeOptions(definitions: seq<(string, EntityTypeDefinition)>): seq<(string, string)> {
    MapFilter(definitions, ContentTypeSelector())
  }

  /**
   * `getEntityTypeOptions`: the content entity types that the alter event's
   * listeners keep, keyed by id, each with its label from its definition;
   * `alterEntityTypes` is what the listeners turn the list of ids into.
   */
  method GetEntityTypeOptions(
    definitions: seq<(string, EntityTypeDefinition)>,
    alterEntityTypes: seq<string> -> seq<string>)
    returns (options: seq<(string, string)>)
    requires DistinctKeys(definitions)
    ensures options == IntersectKeys(ContentTypeOptions(definitions),
                                     alterEntityTypes(Keys(ContentTypeOptions(definitions))))
    ensures forall id :: Get(options, id) ==
              if id in alterEntityTypes(Keys(ContentTypeOptions(definitions)))
                 && Get(definitions, id).Some? && Get(definitions, id).value.isContentEntityType
              then Some(Get(definitions, id).value.typeLabel)
              else None
  {
    var entityTypeOptions: seq<(string, string)> := [];
    for i := 0 to |definitions|
      invariant entityTypeOptions == ContentTypeOptions(definitions[..i])
    {
      var (entityTypeKey, entityType) := definitions[i];
      MapFilterStep(definitions, ContentTypeSelector(), i);
      if !entityType.isContentEntityType {
        continue;
      }
      entityTypeOptions := Put(entityTypeOptions, entityTypeKey, entityType.typeLabel);
    }
    assert definitions[..|definitions|] == definitions;
    var altered := alterEntityTypes(Keys(entityTypeOptions));
    options := IntersectKeys(entityTypeOptions, altered);
    forall id ensures Get(options, id) ==
        if id in altered && Get(definitions, id).Some? && Get(definitions, id).value.isContentEntityType
        then Some(Get(definitions, id).value.typeLabel)
        else None
    {
      MapFilterGet(definitions, ContentTypeSelector(), id);
    }
  }

  /** Keeps every bundle, with its label. */
  function BundleSelector(): (string, BundleInfo) -> Option<string> {
    (id: string, info: BundleInfo) => Some(info.bundleLabel)
  }

  /** The labels of the bundles, keyed by bundle id, before the alter event. */
  function BundleOptionsOf(bundles: seq<(string, BundleInfo)>): seq<(string, string)> {
    MapFilter(bundles, BundleSelector())
  }

  /**
   * `getBundleOptions`: the bundles of the entity type that the alter
   * event's listeners keep, keyed by id, each with its label from the
   * bundle info; `alterBundles` is what the listeners turn the entity type
   * and its list of bundle ids into.
   */
  method GetBundleOptions(
    selectedEntityType: string,
    bundleInfo: seq<(string, BundleInfo)>,
    alterBundles: (string, seq<string>) -> seq<string>)
    returns (options: seq<(string, string)>)
    requires DistinctKeys(bundleInfo)
    ensures options == IntersectKeys(BundleOptionsOf(bundleInfo),
                                     alterBundles(selectedEntityType, Keys(BundleOptionsOf(bundleInfo))))
    ensures forall id :: Get(options, id) ==
              if id in alterBundles(selectedEntityType, Keys(BundleOptionsOf(bundleInfo))) && Get(bundleInfo, id).Some?
              then Some(Get(bundleInfo, id).value.bundleLabel)
              else None
  {
    var bundleOptions: seq<(string, string)> := [];
    for i := 0 to |bundleInfo|
      invariant bundleOptions == BundleOptionsOf(bundleInfo[..i])
    {
      var (bundleKey, bundle) := bundleInfo[i];
      MapFilterStep(bundleInfo, BundleSelector(), i);
      bundleOptions := Put(bundleOptions, bundleKey, bundle.bundleLabel);
    }
    assert bundleInfo[..|bundleInfo|] == bundleInfo;
    var altered := alterBundles(selectedEntityType, Keys(bundleOptions));
    options := IntersectKeys(bundleOptions, altered);
    forall id ensures Get(options, id) ==
        if id in altered && Get(bundleInfo, id).Some? then Some(Get(bundleInfo, id).value.bundleLabel) else None
    {
      MapFilterGet(bundleInfo, BundleSelector(), id);
    }
  }

  /** With no listener changing the list, every content entity type is offered. */
  lemma EntityTypeOptionsUnaltered(definitions: seq<(string, EntityTypeDefinition)>, id: string)
    requires DistinctKeys(definitions)
    ensures var content := ContentTypeOptions(definitions);
            Get(IntersectKeys(content, Keys(content)), id) == Get(content, id)
  {
    var content := ContentTypeOptions(definitions);
    if Get(content, id).Some? {
      var i :| 0 <= i < |content| && content[i].0 == id;
      assert Keys(content)[i] == id;
    }
  }

  // -----------------------------------------------------------------------
  // updateExposedFilters: nested arrays
  // -----------------------------------------------------------------------

  /** `$a[$p0][$p1]...`: the value at the end of the path, when every step finds an array holding the key. */
  function NestedGet(v: Value, path: seq<Key>): Option<Value>
    decreases |path|
  {
    if |path| == 0 then Some(v)
    else if v.Arr? && Get(v.entries, path[0]).Some? then NestedGet(Get(v.entries, path[0]).value, path[1..])
    else None
  }

  /** `isset($a[$p0][$p1]...)`: the path leads to a value other than NULL. */
  predicate Isset(v: Value, path: seq<Key>) {
    NestedGet(v, path).Some? && NestedGet(v, path).value != Null
  }

  /**
   * `NestedArray::setValue($a, $path, $x)` (not forced): every step through
   * NULL or FALSE, or through a missing key, creates the array; a step
   * through any other non-array value is a PHP error (None).
   */
  function NestedSet(v: Value, path: seq<Key>, x: Value): (r: Option<Value>)
    ensures r.Some? <==> Settable(v, path)
    ensures r.Some? && |path| > 0 ==> r.value.Arr?
    decreases |path|
  {
    if |path| == 0 then Some(x)
    else if v.Arr? || v == Null || v == Bool(false) then
      var entries := if v.Arr? then v.entries else [];
      var child := Get(entries, path[0]).GetOr(Null);
      match NestedSet(child, path[1..], x)
      case Some(c) => Some(Arr(Put(entries, path[0], c)))
      case None => None
    else None
  }

  /** Every step of the path is through an array, NULL, FALSE or a missing key: setting a value there succeeds. */
  predicate Settable(v: Value, path: seq<Key>)
    decreases |path|
  {
    |path| == 0 || v == Null || v == Bool(false)
    || (v.Arr? && Settable(Get(v.entries, path[0]).GetOr(Null), path[1..]))
  }

  /** Two paths part at some position: neither is a prefix of the other. */
  predicate Diverge(p: seq<Key>, q: seq<Key>)
    decreases |p|
  {
    |p| > 0 && |q| > 0 && (p[0] != q[0] || Diverge(p[1..], q[1..]))
  }

  /** Paths with a shared beginning part where their remainders part. */
  lemma {:induction false} DivergeAfter(prefix: seq<Key>, p: seq<Key>, q: seq<Key>)
    requires Diverge(p, q)
    ensures Diverge(prefix + p, prefix + q)
  {
    if |prefix| > 0 {
      assert (prefix + p)[1..] == prefix[1..] + p;
      assert (prefix + q)[1..] == prefix[1..] + q;
      DivergeAfter(prefix[1..], p, q);
    } else {
      assert prefix + p == p && prefix + q == q;
    }
  }

  /** After setting a value at a path, the path leads to that value. */
  lemma {:induction false} NestedSetGet(v: Value, path: seq<Key>, x: Value)
    requires NestedSet(v, path, x).Some?
    ensures NestedGet(NestedSet(v, path, x).value, path) == Some(x)
    ensures Settable(NestedSet(v, path, x).value, path)
    decreases |path|
  {
    if |path| > 0 {
      var entries := if v.Arr? then v.entries else [];
      var child := Get(entries, path[0]).GetOr(Null);
      NestedSetGet(child, path[1..], x);
    }
  }

  /** Setting a value at a path changes nothing at any path that parts from it, and keeps it settable. */
  lemma {:induction false} NestedSetOther(v: Value, p: seq<Key>, x: Value, q: seq<Key>)
    requires NestedSet(v, p, x).Some? && Diverge(p, q)
    ensures NestedGet(NestedSet(v, p, x).value, q) == NestedGet(v, q)
    ensures Settable(v, q) ==> Settable(NestedSet(v, p, x).value, q)
    decreases |p|
  {
    var entries := if v.Arr? then v.entries else [];
    var child := Get(entries, p[0]).GetOr(Null);
    var c := NestedSet(child, p[1..], x).value;
    var entries' := Put(entries, p[0], c);
    assert NestedSet(v, p, x).value == Arr(entries');
    if p[0] == q[0] {
      NestedSetOther(child, p[1..], x, q[1..]);
      assert Get(entries', q[0]) == Some(c);
    } else {
      assert Get(entries', q[0]) == Get(entries, q[0]);
    }
  }

  /** A path that leads somewhere runs through arrays only, so each of its proper prefixes leads to an array. */
  lemma {:induction false} NestedGetPrefix(v: Value, prefix: seq<Key>, more: seq<Key>)
    requires |more| > 0 && NestedGet(v, prefix + more).Some?
    ensures NestedGet(v, prefix).Some? && NestedGet(v, prefix).value.Arr?
    decreases |prefix|
  {
    if |prefix| > 0 {
      assert (prefix + more)[0] == prefix[0];
      assert (prefix + more)[1..] == prefix[1..] + more;
      NestedGetPrefix(Get(v.entries, prefix[0]).value, prefix[1..], more);
    } else {
      assert prefix + more == more;
    }
  }

  /** After setting a value at a path, each proper prefix of that path leads to an array. */
  lemma {:induction false} NestedSetPrefix(v: Value, prefix: seq<Key>, more: seq<Key>, x: Value)
    requires |more| > 0 && NestedSet(v, prefix + more, x).Some?
    ensures NestedGet(NestedSet(v, prefix + more, x).value, prefix).Some?
    ensures NestedGet(NestedSet(v, prefix + more, x).value, prefix).value.Arr?
    decreases |prefix|
  {
    if |prefix| > 0 {
      var path := prefix + more;
      assert path[0] == prefix[0];
      assert path[1..] == prefix[1..] + more;
      var entries := if v.Arr? then v.entries else [];
      var child := Get(entries, path[0]).GetOr(Null);
      var c := NestedSet(child, path[1..], x).value;
      assert NestedSet(v, path, x).value == Arr(Put(entries, path[0], c));
      assert Get(Put(entries, path[0], c), prefix[0]) == Some(c);
      NestedSetPrefix(child, prefix[1..], more, x);
    } else {
      assert prefix + more == more;
    }
  }

  // -----------------------------------------------------------------------
  // updateExposedFilters
  // -----------------------------------------------------------------------

  /** The path of the exposed filters checkboxes element in the form, under the plugin's form key. */
  function ExposedFiltersPath(formKey: Key): seq<Key> {
    [formKey, StrKey("bundle_wrapper"), StrKey("exposed_filters_wrapper"), StrKey("exposed_filters")]
  }

  /** The path of the exposed filters wrapper the form callback returns. */
  function WrapperPath(formKey: Key): (r: seq<Key>)
    ensures ExposedFiltersPath(formKey) == r + [StrKey("exposed_filters")]
  {
    [formKey, StrKey("bundle_wrapper"), StrKey("exposed_filters_wrapper")]
  }

  /** The path of one property of one option's checkbox. */
  function OptionPath(formKey: Key, option: Key, property: string): seq<Key> {
    ExposedFiltersPath(formKey) + [option, StrKey(property)]
  }

  /** The options of the checkboxes element, when it is set. */
  function ExposedFilterOptions(form: Value, formKey: Key): Option<seq<(Key, Value)>> {
    var options := NestedGet(form, ExposedFiltersPath(formKey) + [StrKey("#options")]);
    if options.Some? && options.value.Arr? then Some(options.value.entries) else None
  }

  /** A path that parts from the `#value` and `#checked` paths of every option. */
  predicate OutsideResets(formKey: Key, options: seq<Key>, q: seq<Key>) {
    forall option :: option in options ==>
      Diverge(OptionPath(formKey, option, "#value"), q) && Diverge(OptionPath(formKey, option, "#checked"), q)
  }

  /** Two different options, or two properties of one option, sit at paths that part. */
  lemma OptionPathsDiverge(formKey: Key, option1: Key, property1: string, option2: Key, property2: string)
    requires option1 != option2 || property1 != property2
    ensures Diverge(OptionPath(formKey, option1, property1), OptionPath(formKey, option2, property2))
  {
    assert Diverge([option1, StrKey(property1)], [option2, StrKey(property2)]) by {
      if option1 == option2 {
        assert Diverge([StrKey(property1)], [StrKey(property2)]);
      }
    }
    DivergeAfter(ExposedFiltersPath(formKey), [option1, StrKey(property1)], [option2, StrKey(property2)]);
  }

  /**
   * Resetting one option, `#value` to 0 then `#checked` to FALSE, succeeds
   * when both paths are settable, leaves both set and settable, and changes
   * nothing at, nor the settability of, any path that parts from both.
   */
  lemma ResetOptionEffect(v: Value, formKey: Key, option: Key)
    requires Settable(v, OptionPath(formKey, option, "#value"))
    requires Settable(v, OptionPath(formKey, option, "#checked"))
    ensures NestedSet(v, OptionPath(formKey, option, "#value"), Int(0)).Some?
    ensures var middle := NestedSet(v, OptionPath(formKey, option, "#value"), Int(0)).value;
            && NestedSet(middle, OptionPath(formKey, option, "#checked"), Bool(false)).Some?
            && var u := NestedSet(middle, OptionPath(formKey, option, "#checked"), Bool(false)).value;
            && NestedGet(u, OptionPath(formKey, option, "#value")) == Some(Int(0))
            && NestedGet(u, OptionPath(formKey, option, "#checked")) == Some(Bool(false))
            && Settable(u, OptionPath(formKey, option, "#value"))
            && Settable(u, OptionPath(formKey, option, "#checked"))
            && (forall q :: Diverge(OptionPath(formKey, option, "#value"), q)
                            && Diverge(OptionPath(formKey, option, "#checked"), q) ==>
                  NestedGet(u, q) == NestedGet(v, q) && (Settable(v, q) ==> Settable(u, q)))
  {
    var valuePath := OptionPath(formKey, option, "#value");
    var checkedPath := OptionPath(formKey, option, "#checked");
    var middle := NestedSet(v, valuePath, Int(0)).value;
    NestedSetGet(v, valuePath, Int(0));
    OptionPathsDiverge(formKey, option, "#value", option, "#checked");
    NestedSetOther(v, valuePath, Int(0), checkedPath);
    NestedSetGet(middle, checkedPath, Bool(false));
    OptionPathsDiverge(formKey, option, "#checked", option, "#value");
    NestedSetOther(middle, checkedPath, Bool(false), valuePath);
    forall q | Diverge(valuePath, q) && Diverge(checkedPath, q)
      ensures NestedGet(NestedSet(middle, checkedPath, Bool(false)).value, q) == NestedGet(v, q)
      ensures Settable(v, q) ==> Settable(NestedSet(middle, checkedPath, Bool(false)).value, q)
    {
      NestedSetOther(v, valuePath, Int(0), q);
      NestedSetOther(middle, checkedPath, Bool(false), q);
    }
  }

  /**
   * The state of the form after the first `n` options are reset: every
   * option's paths stay settable, the first `n` are reset, and every path
   * that parts from theirs holds what it held in `form`.
   */
  ghost predicate ResetUpTo(form: Value, formKey: Key, options: seq<Key>, n: nat, u: Value)
    requires n <= |options|
  {
    && (forall j :: 0 <= j < |options| ==>
          Settable(u, OptionPath(formKey, options[j], "#value"))
          && Settable(u, OptionPath(formKey, options[j], "#checked")))
    && (forall j :: 0 <= j < n ==>
          && NestedGet(u, OptionPath(formKey, options[j], "#value")) == Some(Int(0))
          && NestedGet(u, OptionPath(formKey, options[j], "#checked")) == Some(Bool(false)))
    && (forall q :: OutsideResets(formKey, options[..n], q) ==> NestedGet(u, q) == NestedGet(form, q))
    && NestedGet(u, WrapperPath(formKey)).Some? && NestedGet(u, WrapperPath(formKey)).value.Arr?
  }

  /** Setting an option's `#checked` leaves the exposed filters wrapper an array. */
  lemma ResetKeepsWrapper(v: Value, formKey: Key, option: Key)
    requires Settable(v, OptionPath(formKey, option, "#checked"))
    ensures var u := NestedSet(v, OptionPath(formKey, option, "#checked"), Bool(false)).value;
            NestedGet(u, WrapperPath(formKey)).Some? && NestedGet(u, WrapperPath(formKey)).value.Arr?
  {
    var more := [StrKey("exposed_filters"), option, StrKey("#checked")];
    assert OptionPath(formKey, option, "#checked") == WrapperPath(formKey) + more;
    NestedSetPrefix(v, WrapperPath(formKey), more, Bool(false));
  }

  /** Resetting option `i` of a form whose first `i` options are reset leaves the first `i + 1` reset. */
  lemma ResetStep(form: Value, formKey: Key, options: seq<Key>, i: nat, before: Value)
    requires i < |options| && ResetUpTo(form, formKey, options, i, before)
    ensures NestedSet(before, OptionPath(formKey, options[i], "#value"), Int(0)).Some?
    ensures var middle := NestedSet(before, OptionPath(formKey, options[i], "#value"), Int(0)).value;
            && NestedSet(middle, OptionPath(formKey, options[i], "#checked"), Bool(false)).Some?
            && ResetUpTo(form, formKey, options, i + 1,
                 NestedSet(middle, OptionPath(formKey, options[i], "#checked"), Bool(false)).value)
  {
    var option := options[i];
    var valuePath := OptionPath(formKey, option, "#value");
    var checkedPath := OptionPath(formKey, option, "#checked");
    ResetOptionEffect(before, formKey, option);
    var middle := NestedSet(before, valuePath, Int(0)).value;
    var u := NestedSet(middle, checkedPath, Bool(false)).value;
    forall j | 0 <= j < |options|
      ensures Settable(u, OptionPath(formKey, options[j], "#value"))
      ensures Settable(u, OptionPath(formKey, options[j], "#checked"))
      ensures j <= i ==> NestedGet(u, OptionPath(formKey, options[j], "#value")) == Some(Int(0))
      ensures j <= i ==> NestedGet(u, OptionPath(formKey, options[j], "#checked")) == Some(Bool(false))
    {
      if options[j] != option {
        OptionPathsDiverge(formKey, option, "#value", options[j], "#value");
        OptionPathsDiverge(formKey, option, "#checked", options[j], "#value");
        OptionPathsDiverge(formKey, option, "#value", options[j], "#checked");
        OptionPathsDiverge(formKey, option, "#checked", options[j], "#checked");
      }
    }
    forall q | OutsideResets(formKey, options[..i + 1], q)
      ensures NestedGet(u, q) == NestedGet(form, q)
    {
      assert option in options[..i + 1];
      assert OutsideResets(formKey, options[..i], q) by {
        assert forall o :: o in options[..i] ==> o in options[..i + 1];
      }
    }
    ResetKeepsWrapper(middle, formKey, option);
  }

  /**
   * `updateExposedFilters`: when the exposed filters checkboxes are set,
   * the `#value` of every option becomes 0 and its `#checked` FALSE, and no
   * other entry of the form changes; the result is the exposed filters
   * wrapper of the updated form, or None where PHP's `array` return type
   * raises a TypeError (the wrapper is missing or not an array), which the
   * checkboxes being set rule out.
   */
  method UpdateExposedFilters(form: Value, formKey: Key) returns (updated: Value, wrapper: Option<seq<(Key, Value)>>)
    requires Isset(form, ExposedFiltersPath(formKey)) ==>
               && ExposedFilterOptions(form, formKey).Some?
               && forall option :: option in KeySet(ExposedFilterOptions(form, formKey).value) ==>
                    Settable(form, OptionPath(formKey, option, "#value"))
                    && Settable(form, OptionPath(formKey, option, "#checked"))
    ensures !Isset(form, ExposedFiltersPath(formKey)) ==> updated == form
    ensures Isset(form, ExposedFiltersPath(formKey)) ==>
              var options := Keys(ExposedFilterOptions(form, formKey).value);
              && (forall option :: option in options ==>
                    && NestedGet(updated, OptionPath(formKey, option, "#value")) == Some(Int(0))
                    && NestedGet(updated, OptionPath(formKey, option, "#checked")) == Some(Bool(false)))
              && (forall q :: OutsideResets(formKey, options, q) ==> NestedGet(updated, q) == NestedGet(form, q))
    ensures wrapper.Some? <==> NestedGet(updated, WrapperPath(formKey)).Some? && NestedGet(updated, WrapperPath(formKey)).value.Arr?
    ensures wrapper.Some? ==> NestedGet(updated, WrapperPath(formKey)) == Some(Arr(wrapper.value))
    ensures Isset(form, ExposedFiltersPath(formKey)) ==> wrapper.Some?
  {
    updated := form;
    if Isset(form, ExposedFiltersPath(formKey)) {
      var options := Keys(ExposedFilterOptions(form, formKey).value);
      forall option | option in options ensures option in KeySet(ExposedFilterOptions(form, formKey).value) {
        var i :| 0 <= i < |options| && options[i] == option;
      }
      NestedGetPrefix(form, WrapperPath(formKey), [StrKey("exposed_filters")]);
      for i := 0 to |options|
        invariant ResetUpTo(form, formKey, options, i, updated)
      {
        var option := options[i];
        ResetStep(form, formKey, options, i, updated);
        var middle := NestedSet(updated, OptionPath(formKey, option, "#value"), Int(0)).value;
        updated := NestedSet(middle, OptionPath(formKey, option, "#checked"), Bool(false)).value;
      }
      assert options[..|options|] == options;
    }
    var found := NestedGet(updated, WrapperPath(formKey));
    wrapper := if found.Some? && found.value.Arr? then Some(found.value.entries) else None;
  }

  // -----------------------------------------------------------------------
  // build: the saved exposed filters
  // -----------------------------------------------------------------------

  /** What the list source factory returns for an entity type and a bundle. */
  datatype ListSource = ListSource(entityType: string, bundle: string, availableFilters: seq<(Key, Value)>)

  /** The default value of the exposed filters checkboxes. */
  datatype SavedFilters =
    | SavedKeys(keys: seq<Value>)   // an array of option keys
    | SavedNull                     // NULL: the saved value is falsy
    | SavedTypeError                // `array_keys` of a truthy non-array: a PHP error

  /** `array_keys($a)`. */
  function ArrayKeys(a: seq<(Key, Value)>): (r: seq<Value>)
    ensures |r| == |a| && forall i :: 0 <= i < |a| ==> r[i] == KeyValue(a[i].0)
  {
    seq(|a|, i requires 0 <= i < |a| => KeyValue(a[i].0))
  }

  /** The list source belongs to the saved source: same entity type and bundle, compared strictly. */
  predicate SameSource(listSource: ListSource, sourceEntityType: Option<string>, sourceEntityBundle: Option<string>) {
    sourceEntityType == Some(listSource.entityType) && sourceEntityBundle == Some(listSource.bundle)
  }

  /**
   * The saved exposed filters used as defaults: none (`[]`) unless there is a
   * list source for the saved entity type and bundle; then the keys of the
   * saved `exposed_filters`, or NULL when that entry is missing or falsy.
   */
  function SavedExposedFilterDefaults(
    listSource: Option<ListSource>,
    sourceEntityType: Option<string>,
    sourceEntityBundle: Option<string>,
    configuration: seq<(Key, Value)>): (r: SavedFilters)
    ensures !(listSource.Some? && SameSource(listSource.value, sourceEntityType, sourceEntityBundle)) ==> r == SavedKeys([])
    ensures listSource.Some? && SameSource(listSource.value, sourceEntityType, sourceEntityBundle) ==>
              var saved := Get(configuration, ExposedFiltersKey).GetOr(Null);
              && (r == SavedNull <==> !Truthy(saved))
              && (saved.Arr? && Truthy(saved) ==> r == SavedKeys(ArrayKeys(saved.entries)))
              && (r == SavedTypeError <==> Truthy(saved) && !saved.Arr?)
  {
    if listSource.Some? && SameSource(listSource.value, sourceEntityType, sourceEntityBundle) then
      var saved := Get(configuration, ExposedFiltersKey).GetOr(Null);
      if !Truthy(saved) then SavedNull
      else if saved.Arr? then SavedKeys(ArrayKeys(saved.entries))
      else SavedTypeError
    else SavedKeys([])
  }

  /** The exposed filters checkboxes element: its default value and its options. */
  datatype CheckboxesElement = CheckboxesElement(defaultValue: SavedFilters, options: seq<(Key, Value)>)

  /**
   * The exposed filters element of `build`: present exactly when the list
   * source of the selected entity type and bundle offers filters, with
   * those filters as options and the saved ones as default.
   */
  function ExposedFiltersElement(
    listSourceFactory: (Option<string>, Option<string>) -> Option<ListSource>,
    selectedEntityType: Option<string>,
    selectedBundle: Option<string>,
    entityMeta: ListPageWrapper): (r: Option<CheckboxesElement>)
    reads entityMeta
    ensures var listSource := listSourceFactory(selectedEntityType, selectedBundle);
            && (r.Some? <==> listSource.Some? && |listSource.value.availableFilters| > 0)
            && (r.Some? ==> r.value.options == listSource.value.availableFilters)
            && (r.Some? ==> r.value.defaultValue == SavedExposedFilterDefaults(
                  listSource, entityMeta.sourceEntityType, entityMeta.sourceEntityBundle, entityMeta.configuration))
  {
    var listSource := listSourceFactory(selectedEntityType, selectedBundle);
    var configuration := SavedExposedFilterDefaults(
      listSource, entityMeta.sourceEntityType, entityMeta.sourceEntityBundle, entityMeta.configuration);
    if listSource.Some? && Truthy(Arr(listSource.value.availableFilters)) then
      Some(CheckboxesElement(configuration, listSource.value.availableFilters))
    else None
  }

  /**
   * After `submit`, the form of the same source shows as checked exactly
   * the submitted filters that were truthy, in order, or NULL when there
   * were none.
   */
  lemma SubmitThenDefaults(
    configuration: seq<(Key, Value)>,
    selected: seq<(Key, Value)>,
    listSource: ListSource)
    ensures SavedExposedFilterDefaults(
              Some(listSource), Some(listSource.entityType), Some(listSource.bundle),
              MergedConfiguration(configuration, selected))
         == if |FilterTruthy(selected)| > 0 then SavedKeys(ArrayKeys(FilterTruthy(selected))) else SavedNull
  {
  }
}
