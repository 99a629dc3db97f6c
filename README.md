# oe_list_pages core, modelled in Dafny

This project models the core logic of the Drupal module `oe_list_pages`. List pages are nodes that show a filtered list of entities. Editors choose a source (entity type and bundle), the filters exposed to visitors, and preset filter values. The modelled parts are:

- **DateStatus** (`date_status.dfy`) is the facet query type for the "date status" facet.
  - `Execute` turns the active values (`past`, `coming`) into one OR condition group and one sort call per value on the Search API query.
  - `Build` counts the raw result buckets into the two options `past` and `coming`.
  - Both are imperative: a `Query`, a `Facet` and the plugin are classes whose methods change their fields.
- **LinkField** (`link_field.dfy`) is the multiselect filter plugin for link fields. It turns stored URIs into display strings and back into form values, and builds the default-value element.
- **EntityReferenceField** (`entity_reference_field.dfy`) is the multiselect filter plugin for entity reference fields:
  - it loads the stored ids;
  - it extracts ids from autocomplete input;
  - it joins the labels;
  - it merges the selection settings.
- **ListPagesWidget** (`list_pages_widget.dfy`) prepares a submitted facet value for the URL, builds the preset filter value, and looks up active filters.
- **ListPage** (`list_page.dfy`) is the entity meta relation plugin:
  - `submit` stores the source and the exposed filters on the entity meta;
  - it sets the default source;
  - it builds the entity type and bundle options through the alter events;
  - it resets the exposed filter checkboxes in the form;
  - it decides which saved exposed filters `build` shows as defaults.
- **PhpArrays** (`php_arrays.dfy`) holds the PHP semantics the core relies on:
  - values and truthiness;
  - ordered arrays with first-match lookup;
  - `$a[$k] = $v`, `+`, `array_filter`, `array_intersect_key`, `array_column`, `implode` and `ltrim`;
  - a filtered `foreach` that assigns keys;
  - how PHP turns a numeric string key into an integer key.
- **Entities** (`entities.dfy`) is an entity storage seen as a map from id to entity. **Wrappers** (`wrappers.dfy`) is the option type that stands for NULL.

Calls into code that is not part of this model are parameters. They include:
- `getStorage()->load()` (a `Storage` map);
- `EntityAutocomplete::getEntityLabels` and `extractEntityIdFromAutocompleteInput`;
- `getTranslationFromContext`;
- the listeners of the two alter events;
- the list source factory.

The current time is an integer parameter `now`.

Where the code has a quirk, the model follows the code as written. The quirks are marked `QUIRK` in the Dafny comments and listed under Findings.

## Model

| member | source | states |
|---|---|---|
| DateStatus.ConditionFor | src/Plugin/facets/query_type/DateStatusQueryType.php:92-100 | a condition on the facet's field at `now`; its operator is `<=` exactly for `past` and `>` for every other value |
| DateStatus.SortFor | src/Plugin/facets/query_type/DateStatusQueryType.php:92-100 | a sort on the facet's field; DESC exactly for `past` and ASC for every other value |
| DateStatus.DateStatusQueryType.Execute | src/Plugin/facets/query_type/DateStatusQueryType.php:75-104 | without a query nothing changes; a full-processing query gets the facet options under the field; the condition groups and sort calls are the old ones followed by exactly the group and sorts for the active items |
| DateStatus.FilterGroupsShape | src/Plugin/facets/query_type/DateStatusQueryType.php:88-103 | no group and no sort without active items; otherwise one OR group tagged `facet:<field>` with one condition per active item, `past` giving `<= now` and DESC, every other value `> now` and ASC |
| DateStatus.DefaultOptions | src/Plugin/facets/query_type/DateStatusQueryType.php:126-131 | two options, `past` first and `coming` second |
| DateStatus.StatusOf | src/Plugin/facets/query_type/DateStatusQueryType.php:144 | every bucket is `past` or `coming`; as written, `coming` exactly when its timestamp is earlier than now |
| DateStatus.Count | src/Plugin/facets/query_type/DateStatusQueryType.php:139-145 | a count never exceeds the number of buckets |
| DateStatus.BuildResults | src/Plugin/facets/query_type/DateStatusQueryType.php:139-154 | two results whose counts add up to the number of buckets |
| DateStatus.DateStatusQueryType.Build | src/Plugin/facets/query_type/DateStatusQueryType.php:136-158 | the facet's results become the two counted options and the active items are unchanged; the method returns the facet |
| DateStatus.BuildResultsShape | src/Plugin/facets/query_type/DateStatusQueryType.php:126-154 | exactly two results, `past`/"Past" then `coming`/"Upcoming"; the counts are non-negative and add up to the number of buckets; as written, `coming` counts the buckets earlier than now and `past` the rest; both counts are 0 without buckets |
| DateStatus.CountsPartition | src/Plugin/facets/query_type/DateStatusQueryType.php:139-145 | every bucket is counted under exactly one option |
| DateStatus.PositionsStep | src/Plugin/facets/query_type/DateStatusQueryType.php:142-145 | the positions with a status are those among all but the last bucket, plus the last when its status matches |
| DateStatus.CountIsCardinality | src/Plugin/facets/query_type/DateStatusQueryType.php:142-145 | a count is the number of bucket positions with that status: each bucket adds exactly 1 |
| DateStatus.Query.Sort | src/Plugin/facets/query_type/DateStatusQueryType.php:95 | a sort call is recorded after the earlier ones; nothing else changes |
| DateStatus.Query.AddConditionGroup | src/Plugin/facets/query_type/DateStatusQueryType.php:102 | the group is appended; nothing else changes |
| DateStatus.Query.SetFacetOptions | src/Plugin/facets/query_type/DateStatusQueryType.php:84-85 | the facet options are stored under the field; nothing else changes |
| DateStatus.Facet.SetResults | src/Plugin/facets/query_type/DateStatusQueryType.php:156 | the results are replaced and the active items are kept |
| DateStatus.IntendedConditionFor | src/Plugin/facets/query_type/DateStatusQueryType.php:92-100 | with `==` on line 97, a condition exists exactly for `past` and `coming` and agrees with the written one for them |
| DateStatus.IntendedSortFor | src/Plugin/facets/query_type/DateStatusQueryType.php:92-100 | with `==` on line 97, a sort exists exactly for `past` and `coming` and agrees with the written one for them |
| DateStatus.AssignmentQuirk | src/Plugin/facets/query_type/DateStatusQueryType.php:97 | as written, the value `ongoing` gets the `>` condition and an ASC sort; intended, it gets neither |
| DateStatus.IntendedStatusOf | src/Plugin/facets/query_type/DateStatusQueryType.php:144 | with the comparison the right way round, a bucket is `past` exactly when its timestamp is at or before now |
| DateStatus.IntendedStatusMatchesExecute | src/Plugin/facets/query_type/DateStatusQueryType.php:144 | with the comparison the right way round, a bucket is counted under exactly the option whose condition its timestamp satisfies |
| DateStatus.InvertedStatusQuirk | src/Plugin/facets/query_type/DateStatusQueryType.php:144 | as written, a bucket one second before now is counted as `coming`, which the `coming` condition rejects |
| DateStatus.IntendedCount | src/Plugin/facets/query_type/DateStatusQueryType.php:139-145 | counting the items of each bucket, a count never exceeds the total number of items |
| DateStatus.IntendedCountsPartition | src/Plugin/facets/query_type/DateStatusQueryType.php:139-145 | counting the items of each bucket, the two counts add up to the total number of items |
| DateStatus.BucketCountQuirk | src/Plugin/facets/query_type/DateStatusQueryType.php:144 | as written, one bucket of five items at now counts 1; intended, 5 |
| LinkField.Scheme | src/Plugin/MultiselectFilterField/LinkField.php:150 | `parse_url($uri, PHP_URL_SCHEME)` as the text before the first ':'; LinkField.SchemeRoundTrip and LinkField.SchemeSplit state what it finds |
| LinkField.SchemeRoundTrip | src/Plugin/MultiselectFilterField/LinkField.php:150 | a URI has no scheme exactly when it holds no ':' or starts with one; otherwise the scheme is non-empty, holds no ':', and the scheme, ':' and the rest give the URI back |
| LinkField.SchemeJoin | src/Plugin/MultiselectFilterField/LinkField.php:150-158 | the scheme, ':' and what `explode(':', $uri, 2)[1]` returns give the URI back |
| LinkField.PathOf | src/Plugin/MultiselectFilterField/LinkField.php:159 | `parse_url($uri, PHP_URL_PATH)`: the reference without authority, query and fragment; LinkField.PathOfBounds states its bounds |
| LinkField.PathOfBounds | src/Plugin/MultiselectFilterField/LinkField.php:159 | the path is no longer than the reference it comes from and holds neither '?' nor '#' |
| LinkField.EntityTarget | src/Plugin/MultiselectFilterField/LinkField.php:167 | `explode('/', substr($uri, 7), 2)`; LinkField.EntityTargetRoundTrip and LinkField.EntityTargetSplit state that it splits at the first '/' |
| LinkField.EntityTargetRoundTrip | src/Plugin/MultiselectFilterField/LinkField.php:167 | the type `explode` finds holds no '/', and the type, '/' and the id (when there is one) give back everything after `entity:` |
| LinkField.SchemeSplit | src/Plugin/MultiselectFilterField/LinkField.php:150 | a URI `scheme:rest` whose scheme holds no ':' has that scheme, and `rest` after it |
| LinkField.DisplayableString | src/Plugin/MultiselectFilterField/LinkField.php:149-177 | `getUriAsDisplayableString`; the lemmas from LinkField.DisplayOtherScheme to LinkField.IntendedRouteDisplayAgrees state the display case by case |
| LinkField.DisplayOtherScheme | src/Plugin/MultiselectFilterField/LinkField.php:152-153 | a URI with no scheme, or with a scheme other than `internal`, `entity` and `route`, is shown as it is |
| LinkField.DisplayInternalOther | src/Plugin/MultiselectFilterField/LinkField.php:157-164 | an `internal:` URI whose path is not `/` shows as the URI without its `internal:` prefix |
| LinkField.FrontSplit | src/Plugin/MultiselectFilterField/LinkField.php:160-161 | `internal:` and a reference starting with '/' is `internal:/` followed by the `<front>` display without `<front>` |
| LinkField.DisplayInternalFront | src/Plugin/MultiselectFilterField/LinkField.php:157-164 | an `internal:` URI whose path is `/` shows as `<front>` followed by the reference after its leading '/', and `internal:/` plus that tail is the URI |
| LinkField.PathSlashNonEmpty | src/Plugin/MultiselectFilterField/LinkField.php:159-161 | a reference whose path is `/` starts with `/`, so `substr(…, 1)` has a character to cut |
| LinkField.DisplayInternalSplit | src/Plugin/MultiselectFilterField/LinkField.php:157-164 | `internal:` followed by a reference shows as the reference, or as `<front>` and the reference after its `/` when the path is `/` |
| LinkField.DisplayFrontPage | src/Plugin/MultiselectFilterField/LinkField.php:159-162 | `internal:/`, with any query or fragment after it, shows as `<front>` followed by that query or fragment |
| LinkField.DisplayInternalPath | src/Plugin/MultiselectFilterField/LinkField.php:157-164 | any other internal path without authority, query or fragment is shown as it is |
| LinkField.EntityTargetSplit | src/Plugin/MultiselectFilterField/LinkField.php:167 | `entity:TYPE/ID` splits into TYPE and ID when TYPE holds no '/' |
| LinkField.DisplayEntity | src/Plugin/MultiselectFilterField/LinkField.php:166-171 | an `entity:` URI shows the label of the node it links to when its type is `node` and the node loads, and the URI otherwise |
| LinkField.DisplayNodeLink | src/Plugin/MultiselectFilterField/LinkField.php:166-171 | `entity:node/ID` shows the label of node ID when that node loads, and the URI otherwise |
| LinkField.DisplayRoute | src/Plugin/MultiselectFilterField/LinkField.php:172-174 | a `route:` URI loses its longest leading run of mask characters: the display is a suffix of the URI, everything cut is in the mask, and the display does not start with a mask character |
| LinkField.DisplayRouteSplit | src/Plugin/MultiselectFilterField/LinkField.php:172-174 | `route:` followed by a name shows as the URI with its leading mask characters trimmed |
| LinkField.RouteMaskQuirk | src/Plugin/MultiselectFilterField/LinkField.php:173 | as written, a route name that starts with a mask character loses it too: `route:` + c + rest shows as rest when rest does not start with a mask character |
| LinkField.RouteMaskQuirkExample | src/Plugin/MultiselectFilterField/LinkField.php:173 | as written, `route:entity.node.canonical` shows as `ntity.node.canonical` |
| LinkField.IntendedRouteDisplay | src/Plugin/MultiselectFilterField/LinkField.php:172-174 | the intended display is what follows `route:`, which gives the URI back when prefixed |
| LinkField.IntendedRouteDisplayAgrees | src/Plugin/MultiselectFilterField/LinkField.php:172-174 | when the route name does not start with a mask character, the written and the intended display agree |
| LinkField.Displayed | src/Plugin/MultiselectFilterField/LinkField.php:123-125 | one display string per stored value |
| LinkField.DisplayedAt | src/Plugin/MultiselectFilterField/LinkField.php:123-125 | the i-th display string is the display of the i-th stored value |
| LinkField.GetDefaultValues | src/Plugin/MultiselectFilterField/LinkField.php:63-70 | the loop's result is the display strings of the stored values: one per value, the i-th being the display of the i-th value |
| LinkField.GetDefaultValuesLabel | src/Plugin/MultiselectFilterField/LinkField.php:120-128 | the loop's result, joined with ", ", is the display strings of the stored values, in order, joined with ", " |
| LinkField.PreparedLinks | src/Plugin/MultiselectFilterField/LinkField.php:102-115 | every prepared delta is a delta of the submitted values |
| LinkField.PreparedLinksGet | src/Plugin/MultiselectFilterField/LinkField.php:106-114 | a delta is kept exactly when it is submitted and set in the form state, mapped to its `link` sub-value; no delta repeats |
| LinkField.PrepareDefaultFilterValues | src/Plugin/MultiselectFilterField/LinkField.php:102-115 | the loop's result is the prepared values |
| LinkField.GetFieldValues | src/Plugin/MultiselectFilterField/LinkField.php:133-136 | `array_column($values, 'uri')`: its properties are those of PhpArrays.ArrayColumn and the lemmas after it |
| LinkField.BuildDefaultValueForm | src/Plugin/MultiselectFilterField/LinkField.php:75-97 | nothing exactly when the field definition is missing; the maximum length is 2048 and the link type is kept; an internal or generic link type gives a node `entity_autocomplete` without default value processing, any other type a `url` |
| EntityReferenceField.GetDefaultValues | src/Plugin/MultiselectFilterField/EntityReferenceField.php:73-87 | `[]` without a field definition; otherwise one load result per stored value, in order, present exactly when the id is in the target type's storage |
| EntityReferenceField.PrepareDefaultFilterValues | src/Plugin/MultiselectFilterField/EntityReferenceField.php:116-126 | the same length as the input, and the i-th output is the id extracted from the i-th input |
| EntityReferenceField.GetDefaultValuesLabel | src/Plugin/MultiselectFilterField/EntityReferenceField.php:131-154 | `""` without a field definition; otherwise the labels of the values that are truthy and load, joined with ", " |
| EntityReferenceField.Labels | src/Plugin/MultiselectFilterField/EntityReferenceField.php:139-151 | never more labels than values |
| EntityReferenceField.LabelsSingle | src/Plugin/MultiselectFilterField/EntityReferenceField.php:140-150 | one value gives its translated entity's label exactly when it is truthy and loads, and nothing otherwise |
| EntityReferenceField.LabelsConcat | src/Plugin/MultiselectFilterField/EntityReferenceField.php:139-151 | the labels of two runs of values are those of the first followed by those of the second, so input order is kept |
| EntityReferenceField.LabelsAllLoaded | src/Plugin/MultiselectFilterField/EntityReferenceField.php:140-151 | when every value is truthy and loads, there is one label per value, in order |
| EntityReferenceField.LabelsNoneLoaded | src/Plugin/MultiselectFilterField/EntityReferenceField.php:141-147 | values that are all falsy or unknown give no label |
| EntityReferenceField.GetFieldValues | src/Plugin/MultiselectFilterField/EntityReferenceField.php:159-162 | `array_column($values, 'target_id')`: its properties are those of PhpArrays.ArrayColumn and the lemmas after it |
| EntityReferenceField.SelectionSettings | src/Plugin/MultiselectFilterField/EntityReferenceField.php:98-101 | `match_operator` = CONTAINS and `match_limit` = 10 always win and come first; every other handler setting is kept; no other key is added |
| EntityReferenceField.BuildDefaultValueForm | src/Plugin/MultiselectFilterField/EntityReferenceField.php:92-111 | nothing exactly when the field definition is missing; otherwise an `entity_autocomplete` of length 1024 over the target type, with the field's handler and the merged selection settings |
| ListPagesWidget.PrepareValueForUrl | src/Plugin/facets/widget/ListPagesWidgetBase.php:38-45 | the list is empty exactly when the value is falsy; an array gives its values in order, re-indexed; any other value gives itself alone |
| ListPagesWidget.PrepareValueForUrlIdempotent | src/Plugin/facets/widget/ListPagesWidgetBase.php:44 | preparing the prepared list again, as a PHP list, gives it back |
| ListPagesWidget.PrepareValueForUrlMembers | src/Plugin/facets/widget/ListPagesWidgetBase.php:44 | a value is in the list exactly when the submitted array holds it under some key |
| ListPagesWidget.PrepareDefaultFilterValue | src/Plugin/facets/widget/ListPagesWidgetBase.php:50-55 | the operator is always OR, the values are those prepared for the URL, and they are empty exactly when the submitted value is falsy |
| ListPagesWidget.GetValueFromActiveFilters | src/Plugin/facets/widget/ListPagesWidgetBase.php:74-77 | a value exactly when the active items hold the key, as PHP converts it, and then the item under that key |
| ListPagesWidget.ActiveFilterAtPosition | src/Plugin/facets/widget/ListPagesWidgetBase.php:76 | in a list of active items, the decimal string of a position finds the item at that position |
| ListPage.ListPageWrapper.SetSource | src/Plugin/EntityMetaRelation/ListPage.php:251 | the source becomes the given entity type and bundle; the configuration is kept |
| ListPage.ListPageWrapper.SetConfiguration | src/Plugin/EntityMetaRelation/ListPage.php:256 | the configuration is replaced; the source is kept |
| ListPage.HostEntity.Attach | src/Plugin/EntityMetaRelation/ListPage.php:257 | the entity meta is attached after the earlier ones |
| ListPage.Submit | src/Plugin/EntityMetaRelation/ListPage.php:236-258 | without a truthy entity type and bundle nothing changes; otherwise the source is the submitted pair, the configuration is the merged one, and the entity meta is attached to the host |
| ListPage.MergedConfiguration | src/Plugin/EntityMetaRelation/ListPage.php:252-256 | `exposed_filters` is the submitted selection without its falsy entries and comes first; every other key keeps its value; no other key is added |
| ListPage.MergedConfigurationIdempotent | src/Plugin/EntityMetaRelation/ListPage.php:256 | submitting the same selection twice stores the same configuration as once |
| ListPage.FirstKey | src/Plugin/EntityMetaRelation/ListPage.php:270 | NULL exactly for no bundles, otherwise the first bundle's key |
| ListPage.FillDefaultEntityMetaValues | src/Plugin/EntityMetaRelation/ListPage.php:263-271 | the source becomes `node` with its first bundle; the configuration is kept |
| ListPage.GetEntityTypeOptions | src/Plugin/EntityMetaRelation/ListPage.php:298-311 | exactly the content entity types that the alter listeners keep, each with the label from its definition, in definition order |
| ListPage.EntityTypeOptionsUnaltered | src/Plugin/EntityMetaRelation/ListPage.php:308-310 | when the listeners return the list unchanged, every content entity type is offered |
| ListPage.GetBundleOptions | src/Plugin/EntityMetaRelation/ListPage.php:322-333 | exactly the bundles that the alter listeners keep, each with the label from the bundle info, in bundle order |
| ListPage.NestedSet | src/Plugin/EntityMetaRelation/ListPage.php:130-131 | `NestedArray::setValue` succeeds exactly along a path through arrays, NULL, FALSE or missing keys, and then leaves an array when the path is not empty |
| ListPage.NestedGetPrefix | src/Plugin/EntityMetaRelation/ListPage.php:121-134 | when a longer path leads to a value, every proper prefix of it leads to an array |
| ListPage.NestedSetPrefix | src/Plugin/EntityMetaRelation/ListPage.php:130-134 | after setting a value at a path, every proper prefix of the path leads to an array |
| ListPage.NestedSetGet | src/Plugin/EntityMetaRelation/ListPage.php:130-131 | after setting a value at a path, the path leads to that value |
| ListPage.NestedSetOther | src/Plugin/EntityMetaRelation/ListPage.php:130-131 | setting a value at a path changes nothing at any path that parts from it |
| ListPage.OptionPathsDiverge | src/Plugin/EntityMetaRelation/ListPage.php:123-131 | the `#value` and `#checked` paths of different options, or of one option, part |
| ListPage.WrapperPath | src/Plugin/EntityMetaRelation/ListPage.php:121-134 | the path of `exposed_filters` is the path of the returned wrapper followed by `exposed_filters` |
| ListPage.ResetKeepsWrapper | src/Plugin/EntityMetaRelation/ListPage.php:130-134 | resetting an option's `#checked` leaves the exposed filters wrapper an array |
| ListPage.ResetOptionEffect | src/Plugin/EntityMetaRelation/ListPage.php:130-131 | resetting one option sets its `#value` to 0 and its `#checked` to FALSE, keeps both settable, and changes nothing at, nor the settability of, any path apart from both |
| ListPage.ResetStep | src/Plugin/EntityMetaRelation/ListPage.php:129-132 | one more turn of the loop keeps every option settable, resets one more option, and keeps every path apart from the reset ones |
| ListPage.UpdateExposedFilters | src/Plugin/EntityMetaRelation/ListPage.php:116-135 | without the checkboxes element the form is unchanged; otherwise every option's `#value` is 0 and `#checked` is FALSE, and every entry at a path apart from those is unchanged; the result is the wrapper's entries exactly when the updated form holds an array there, and NULL (PHP's TypeError) otherwise; with the checkboxes element there is always a wrapper |
| ListPage.ArrayKeys | src/Plugin/EntityMetaRelation/ListPage.php:214 | one key per entry, in order |
| ListPage.SavedExposedFilterDefaults | src/Plugin/EntityMetaRelation/ListPage.php:212-215 | `[]` unless there is a list source with the saved entity type and bundle; then NULL exactly when the saved `exposed_filters` is missing or falsy, and otherwise its keys |
| ListPage.ExposedFiltersElement | src/Plugin/EntityMetaRelation/ListPage.php:205-225 | the checkboxes exist exactly when the selected list source offers filters; their options are those filters and their default is the saved selection |
| ListPage.SubmitThenDefaults | src/Plugin/EntityMetaRelation/ListPage.php:212-215 | after `submit`, the same source shows as checked exactly the truthy submitted filters in order, or NULL when there were none |
| PhpArrays.Values | src/Plugin/facets/widget/ListPagesWidgetBase.php:44 | `array_values`: the values in order; PhpArrays.ValuesOfList and ListPagesWidget.PrepareValueForUrlMembers state what it keeps |
| PhpArrays.ValuesOfList | src/Plugin/facets/widget/ListPagesWidgetBase.php:44 | `array_values` of a list gives the list's values back |
| PhpArrays.Get | src/Plugin/facets/widget/ListPagesWidgetBase.php:76 | a value exactly when the key is present, and then one of the key's entries |
| PhpArrays.Put | src/Plugin/MultiselectFilterField/LinkField.php:110 | the key then holds the value; every other key keeps its value |
| PhpArrays.Union | src/Plugin/EntityMetaRelation/ListPage.php:256 | `+` keeps the left array first and whole; a key takes its left value when present and its right value otherwise |
| PhpArrays.UnionIdempotent | src/Plugin/EntityMetaRelation/ListPage.php:256 | adding the same left array twice is the same as once |
| PhpArrays.IntersectKeys | src/Plugin/EntityMetaRelation/ListPage.php:310 | exactly the entries whose key is listed, with their values |
| PhpArrays.FilterTruthy | src/Plugin/EntityMetaRelation/ListPage.php:252-255 | exactly the entries with a truthy value |
| PhpArrays.FilterTruthyGet | src/Plugin/EntityMetaRelation/ListPage.php:252-255 | a key keeps its value exactly when that value is truthy |
| PhpArrays.ArrayColumn | src/Plugin/MultiselectFilterField/LinkField.php:135 | never more values than rows |
| PhpArrays.ArrayColumnMembers | src/Plugin/MultiselectFilterField/LinkField.php:135 | every value in the column is the column of some row |
| PhpArrays.ArrayColumnComplete | src/Plugin/MultiselectFilterField/LinkField.php:135 | when every row has the column, there is one value per row, in order |
| PhpArrays.ArrayColumnConcat | src/Plugin/MultiselectFilterField/EntityReferenceField.php:161 | the column of two runs of rows is the column of the first followed by that of the second |
| PhpArrays.Join | src/Plugin/MultiselectFilterField/LinkField.php:127 | `implode`; PhpArrays.JoinConcat states how it splits over concatenation |
| PhpArrays.JoinConcat | src/Plugin/MultiselectFilterField/LinkField.php:127 | `implode` of two non-empty runs of strings is the `implode` of each with the separator between them |
| PhpArrays.LTrim | src/Plugin/MultiselectFilterField/LinkField.php:173 | a suffix, all of whose removed characters are in the mask, and that does not start with one |
| PhpArrays.LTrimSkip | src/Plugin/MultiselectFilterField/LinkField.php:173 | a leading run of mask characters does not change what `ltrim` leaves of what follows |
| PhpArrays.LTrimPrefix | src/Plugin/MultiselectFilterField/LinkField.php:173 | a leading run of mask characters followed by a non-mask character is removed exactly |
| PhpArrays.MapFilter | src/Plugin/EntityMetaRelation/ListPage.php:301-306 | a filtered `foreach` assigning `$out[$k]`; PhpArrays.MapFilterKeys, PhpArrays.MapFilterGet and PhpArrays.MapFilterStep state its result |
| PhpArrays.MapFilterKeys | src/Plugin/MultiselectFilterField/LinkField.php:108-112 | a filtered `foreach` that assigns `$out[$k]` never adds a key that is not in its input |
| PhpArrays.MapFilterGet | src/Plugin/EntityMetaRelation/ListPage.php:301-306 | a filtered `foreach` that assigns `$out[$k]` keeps exactly the selected keys with their new values, without repeats |
| PhpArrays.MapFilterStep | src/Plugin/EntityMetaRelation/ListPage.php:325-327 | one more step of that loop is one more `$out[$k] = ...` |
| PhpArrays.NormalizeKey | src/Plugin/facets/widget/ListPagesWidgetBase.php:76 | PHP's key conversion of a string; PhpArrays.NormalizeIntString, PhpArrays.NormalizeKeyInjective and PhpArrays.CanonicalDecimalRoundTrip state it |
| PhpArrays.NormalizeIntString | src/Plugin/facets/widget/ListPagesWidgetBase.php:76 | the decimal string of a 64-bit integer names that integer key |
| PhpArrays.NormalizeKeyInjective | src/Plugin/facets/widget/ListPagesWidgetBase.php:76 | different strings name different keys |
| PhpArrays.CanonicalDecimalRoundTrip | src/Plugin/facets/widget/ListPagesWidgetBase.php:76 | a canonical decimal string is the decimal notation of its value |

## Left out

- The following files are not part of this model: `src/Plugin/facets/processor/TransformLabel.php`, `src/Plugin/MultiselectFilterField/BooleanField.php`, `src/ListSourceInterface.php` and the two test files. The first two have no stable logic of their own, and the others hold no behaviour.
- Render array entries are not modelled: `#title`, `#description`, `#required_error`, `#element_validate`, `#ajax`, containers and `t()` strings. Only the properties the contracts talk about are modelled.
- `ListPage::build` is modelled only for the saved-filter selection and the exposed filters element (lines 205-225). The entity type and bundle select elements and `$form_state->set` are left out. So are `updateEntityBundles`, `create` and the constructors.
- `getFacetFieldDefinition`, `parent::getDefaultValues`, the form state and the facet lookup are calls into code that is not part of this model, so they become parameters. So are storages, entity translation, the alter event listeners and the list source factory.
- `DrupalDateTime` and the storage time zone are left out: `now` is an integer timestamp, and a raw bucket's `filter` is an integer.
- PHP's `parse_url` is replaced by a simplified split: the scheme is the text before the first ':'. The path follows the generic syntax of RFC 3986, section 3, and is cut at '?' or '#'. The split differs from PHP's `parse_url` on two kinds of input. For `internal:///foo`, PHP's `parse_url` returns FALSE, so PHP shows the URI unchanged while the model shows `///foo`. For `route:123`, PHP's `parse_url` reads a host `route` and a port `123` and no scheme, so PHP shows `route:123` while the model trims it to `123`.
- The Search API query is reduced to a recorded list of condition groups, a list of sort calls (in call order) and the `search_api_facets` options map. How the backend orders or merges the sorts is not modelled.
- LinkField.DisplayEntity: for `entity:node` without a '/', PHP calls `load(NULL)`. The model treats that as a failed load.
- LinkField.DisplayEntity: the label of a loaded node is an uninterpreted function, standing in for `EntityAutocomplete::getEntityLabels`.
- ListPage.UpdateExposedFilters: PHP raises a TypeError when the form holds no array at the exposed filters wrapper, because of the `array` return type under strict types; the model returns NULL there instead of modelling the exception. It also requires the checkboxes element to carry an `#options` array. It also requires every option path to be settable, that is, to run through arrays, NULL, FALSE or missing keys. Drupal's form builder produces forms of that shape, and the PHP errors raised on other shapes are not modelled.
- ListPage.NestedSet: stepping through FALSE creates the array, as PHP 8 still does (with a deprecation notice). Stepping through any other non-array scalar is treated as a PHP error.
- ListPage.Submit: the entity meta comes from the form state, and the host entity from the form object. Both are parameters. `attach` is recorded as appending to the host's list of attached entity metas.
- ListPage.GetEntityTypeOptions and ListPage.GetBundleOptions: entity type and bundle ids are kept as strings. PHP applies the same integer-key conversion to both sides of `array_intersect_key`, so the result does not depend on it.
- ListPagesWidget.GetValueFromActiveFilters: active items are modelled as strings, so the `?string` return type of strict mode never fails.
- PhpArrays.NormalizeKey: only canonical decimal strings within the 64-bit range become integer keys, following PHP. Integer overflow elsewhere is not modelled.
- DateStatus.DateStatusQueryType.Execute, Build and the three quirks are modelled as written. Their intended versions stand beside them (see Findings) and are related to the written ones by lemmas; the plugin's methods do not use them.

## Findings

| source | as written | input that shows it | evidently intended | confidence | as-written member | corrected member |
|---|---|---|---|---|---|---|
| src/Plugin/facets/query_type/DateStatusQueryType.php:97 | `elseif ($value = self::UPCOMING)` assigns, so every value other than `past` gets the `>` condition and an ASC sort | active value `ongoing` | `==`: only `coming` gets the `>` condition and the ASC sort | high, not executed | DateStatus.AssignmentQuirk | DateStatus.IntendedConditionFor, DateStatus.IntendedSortFor |
| src/Plugin/facets/query_type/DateStatusQueryType.php:144 | `$now > $result_filter` counts a bucket earlier than now as `coming` | a bucket with `filter = now - 1` | a bucket at or before now is `past`, matching the `<=` condition of `execute` | high, not executed | DateStatus.InvertedStatusQuirk | DateStatus.IntendedStatusMatchesExecute |
| src/Plugin/facets/query_type/DateStatusQueryType.php:144 | each bucket adds 1, whatever its own count | one bucket `{filter: now, count: 5}` gives a `past` count of 1 | each bucket adds its count, so the two counts add up to the number of items | medium, not executed | DateStatus.BucketCountQuirk | DateStatus.IntendedCountsPartition |
| src/Plugin/MultiselectFilterField/LinkField.php:173 | `ltrim($uri, 'route:')` removes any leading run of the characters r, o, u, t, e and ':' | `route:entity.node.canonical` shows as `ntity.node.canonical` | remove the prefix `route:` only | medium, not executed | LinkField.RouteMaskQuirkExample | LinkField.IntendedRouteDisplay |
