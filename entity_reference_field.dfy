/**
 * The multiselect filter plugin for entity reference fields
 * (`entity_reference`, `entity_reference_revisions`,
 * `skos_concept_entity_reference`).
 *
 * Stored filter values are entity ids of the field's target type. The
 * storage of each entity type is a parameter (`storageOf`), and so are the
 * calls into code this model does not see:
 * `EntityAutocomplete::extractEntityIdFromAutocompleteInput` (`extractId`)
 * and `EntityRepository::getTranslationFromContext` (`translate`). An
 * entity's `label()` is its title.
 */
module EntityReferenceField {
  import opened Wrappers
  import opened PhpArrays
  import opened Entities

  /** The settings of an entity reference field the plugin reads. */
  datatype EntityReferenceFieldDefinition = EntityReferenceFieldDefinition(
    targetType: string,
    handler: string,
    handlerSettings: seq<(Key, Value)>)

  // -----------------------------------------------------------------------
  // getDefaultValues
  // -----------------------------------------------------------------------

  /**
   * `getDefaultValues`: nothing without a field definition; otherwise one
   * load result per stored value, in order, NULL where the id is unknown.
   */
  method GetDefaultValues(
    fieldDefinition: Option<EntityReferenceFieldDefinition>,
    storageOf: string -> Storage,
    filterValues: seq<string>)
    returns (defaultValue: seq<Option<Entity>>)
    ensures fieldDefinition.None? ==> defaultValue == []
    ensures fieldDefinition.Some? ==>
              var storage := storageOf(fieldDefinition.value.targetType);
              && |defaultValue| == |filterValues|
              && forall i :: 0 <= i < |filterValues| ==>
                   (defaultValue[i].Some? <==> filterValues[i] in storage)
                   && (defaultValue[i].Some? ==> defaultValue[i].value == storage[filterValues[i]])
  {
    if fieldDefinition.None? {
      return [];
    }
    var storage := storageOf(fieldDefinition.value.targetType);
    defaultValue := [];
    for i := 0 to |filterValues|
      invariant |defaultValue| == i
      invariant forall j :: 0 <= j < i ==> defaultValue[j] == Load(storage, filterValues[j])
    {
      defaultValue := defaultValue + [Load(storage, filterValues[i])];
    }
  }

  // -----------------------------------------------------------------------
  // prepareDefaultFilterValues
  // -----------------------------------------------------------------------

  /** `prepareDefaultFilterValues`: the id extracted from each submitted autocomplete input, in order. */
  method PrepareDefaultFilterValues(values: seq<string>, extractId: string -> Option<string>)
    returns (preparedValues: seq<Option<string>>)
    ensures |preparedValues| == |values|
    ensures forall i :: 0 <= i < |values| ==> preparedValues[i] == extractId(values[i])
  {
    preparedValues := [];
    for i := 0 to |values|
      invariant |preparedValues| == i
      invariant forall j :: 0 <= j < i ==> preparedValues[j] == extractId(values[j])
    {
      preparedValues := preparedValues + [extractId(values[i])];
    }
  }

  // -----------------------------------------------------------------------
  // getDefaultValuesLabel
  // -----------------------------------------------------------------------

  /**
   * The labels of the stored values that are truthy and load, in order:
   * each such entity is translated for the current context and labelled.
   */
  function Labels(storage: Storage, translate: Entity -> Entity, filterValues: seq<string>): (r: seq<string>)
    ensures |r| <= |filterValues|
  {
    if |filterValues| == 0 then []
    else
      var last := filterValues[|filterValues| - 1];
      Labels(storage, translate, filterValues[..|filterValues| - 1])
        + (if TruthyString(last) && last in storage then [translate(storage[last]).title] else [])
  }

  /** One value yields its label exactly when it is truthy and loads, and nothing otherwise. */
  lemma LabelsSingle(storage: Storage, translate: Entity -> Entity, v: string)
    ensures Labels(storage, translate, [v]) ==
              if TruthyString(v) && v in storage then [translate(storage[v]).title] else []
  {
    assert [v][..0] == [];
  }

  /** The labels of two runs of values are the labels of the first followed by those of the second. */
  lemma {:induction false} LabelsConcat(storage: Storage, translate: Entity -> Entity, a: seq<string>, b: seq<string>)
    ensures Labels(storage, translate, a + b) == Labels(storage, translate, a) + Labels(storage, translate, b)
  {
    if |b| == 0 {
      assert a + b == a;
    } else {
      var n := |b| - 1;
      assert (a + b)[..|a + b| - 1] == a + b[..n];
      assert (a + b)[|a + b| - 1] == b[n];
      LabelsConcat(storage, translate, a, b[..n]);
    }
  }

  /** When every stored value is truthy and loads, there is one label per value, in order. */
  lemma {:induction false} LabelsAllLoaded(storage: Storage, translate: Entity -> Entity, filterValues: seq<string>)
    requires forall i :: 0 <= i < |filterValues| ==> TruthyString(filterValues[i]) && filterValues[i] in storage
    ensures |Labels(storage, translate, filterValues)| == |filterValues|
    ensures forall i :: 0 <= i < |filterValues| ==>
              Labels(storage, translate, filterValues)[i] == translate(storage[filterValues[i]]).title
  {
    if |filterValues| > 0 {
      var n := |filterValues| - 1;
      var init := filterValues[..n];
      LabelsAllLoaded(storage, translate, init);
      assert Labels(storage, translate, filterValues)
          == Labels(storage, translate, init) + [translate(storage[filterValues[n]]).title];
    }
  }

  /** No value that is falsy or fails to load contributes a label. */
  lemma {:induction false} LabelsNoneLoaded(storage: Storage, translate: Entity -> Entity, filterValues: seq<string>)
    requires forall i :: 0 <= i < |filterValues| ==> !TruthyString(filterValues[i]) || filterValues[i] !in storage
    ensures Labels(storage, translate, filterValues) == []
  {
    if |filterValues| > 0 {
      LabelsNoneLoaded(storage, translate, filterValues[..|filterValues| - 1]);
    }
  }

  /**
   * `getDefaultValuesLabel`: the empty string without a field definition;
   * otherwise the labels of the stored values that are truthy and load,
   * joined with ", ".
   */
  method GetDefaultValuesLabel(
    fieldDefinition: Option<EntityReferenceFieldDefinition>,
    storageOf: string -> Storage,
    translate: Entity -> Entity,
    filterValues: seq<string>)
    returns (joined: string)
    ensures fieldDefinition.None? ==> joined == ""
    ensures fieldDefinition.Some? ==>
              joined == Join(", ", Labels(storageOf(fieldDefinition.value.targetType), translate, filterValues))
  {
    if fieldDefinition.None? {
      return "";
    }
    var storage := storageOf(fieldDefinition.value.targetType);
    var values: seq<string> := [];
    for i := 0 to |filterValues|
      invariant values == Labels(storage, translate, filterValues[..i])
    {
      var filterValue := filterValues[i];
      assert filterValues[..i + 1][..i] == filterValues[..i];
      if !TruthyString(filterValue) {
        continue;
      }
      var entity := Load(storage, filterValue);
      if entity.None? {
        continue;
      }
      var translated := translate(entity.value);
      values := values + [translated.title];
    }
    assert filterValues[..|filterValues|] == filterValues;
    joined := Join(", ", values);
  }

  // -----------------------------------------------------------------------
  // getFieldValues
  // -----------------------------------------------------------------------

  /** `getFieldValues`: the `target_id` of every stored item that has one, in item order. */
  function GetFieldValues(items: seq<Value>): seq<Value> {
    ArrayColumn(items, StrKey("target_id"))
  }

  // -----------------------------------------------------------------------
  // buildDefaultValueForm
  // -----------------------------------------------------------------------

  /** The autocomplete defaults, which the field's handler settings cannot override. */
  const SelectionDefaults: seq<(Key, Value)> :=
    [(StrKey("match_operator"), Str("CONTAINS")), (StrKey("match_limit"), Int(10))]

  /**
   * The selection settings of the autocomplete element: the defaults
   * `match_operator` = CONTAINS and `match_limit` = 10 always win, every
   * other handler setting is kept, and nothing else is added.
   */
  function SelectionSettings(handlerSettings: seq<(Key, Value)>): (r: seq<(Key, Value)>)
    ensures Get(r, StrKey("match_operator")) == Some(Str("CONTAINS"))
    ensures Get(r, StrKey("match_limit")) == Some(Int(10))
    ensures forall k :: k !in {StrKey("match_operator"), StrKey("match_limit")} ==> Get(r, k) == Get(handlerSettings, k)
    ensures KeySet(r) == KeySet(handlerSettings) + {StrKey("match_operator"), StrKey("match_limit")}
    ensures r[..2] == SelectionDefaults
  {
    assert KeySet(SelectionDefaults) == {StrKey("match_operator"), StrKey("match_limit")} by {
      assert SelectionDefaults[0].0 == StrKey("match_operator");
      assert SelectionDefaults[1].0 == StrKey("match_limit");
    }
    Union(SelectionDefaults, handlerSettings)
  }

  /** The default-value autocomplete element: the properties the plugin sets. */
  datatype AutocompleteElement = AutocompleteElement(
    elementType: string,
    maxLength: int,
    targetType: string,
    selectionHandler: string,
    selectionSettings: seq<(Key, Value)>)

  /**
   * `buildDefaultValueForm`: nothing without a field definition; otherwise
   * an entity autocomplete of at most 1024 characters over the field's
   * target type, with its selection handler and the merged selection settings.
   */
  function BuildDefaultValueForm(fieldDefinition: Option<EntityReferenceFieldDefinition>): (r: Option<AutocompleteElement>)
    ensures r.None? <==> fieldDefinition.None?
    ensures r.Some? ==>
              && r.value.elementType == "entity_autocomplete"
              && r.value.maxLength == 1024
              && r.value.targetType == fieldDefinition.value.targetType
              && r.value.selectionHandler == fieldDefinition.value.handler
              && r.value.selectionSettings == SelectionSettings(fieldDefinition.value.handlerSettings)
  {
    match fieldDefinition
    case None => None
    case Some(definition) =>
      Some(AutocompleteElement(
        "entity_autocomplete", 1024, definition.targetType, definition.handler,
        SelectionSettings(definition.handlerSettings)))
  }
}
