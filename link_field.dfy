/**
 * The multiselect filter plugin for link fields (`link`).
 *
 * Stored link values are URIs. For display the plugin shortens the built-in
 * schemes: `internal:` loses its scheme (the front page `/` shows as
 * `<front>`), `entity:node/ID` shows the node's autocomplete label when the
 * node loads, and `route:` goes through `ltrim` with the character mask
 * "route:". The scheme is the text before the first ':' (section 3.1 of
 * RFC 3986); the path is split from the rest by the generic syntax of
 * section 3 of RFC 3986, which stands in for PHP's `parse_url`.
 *
 * The node storage is a parameter, and so is `EntityAutocomplete::getEntityLabels`
 * (`entityLabel`), a call into code this model does not see.
 */
module LinkField {
  import opened Wrappers
  import opened PhpArrays
  import opened Entities

  // -----------------------------------------------------------------------
  // Splitting a URI
  // -----------------------------------------------------------------------

  /** The position of the first `c` in `s`, if any. */
  function IndexOf(s: string, c: char): (r: Option<nat>)
    ensures r.Some? ==> r.value < |s| && s[r.value] == c && forall i :: 0 <= i < r.value ==> s[i] != c
    ensures r.None? ==> forall i :: 0 <= i < |s| ==> s[i] != c
  {
    if |s| == 0 then None
    else if s[0] == c then Some(0)
    else match IndexOf(s[1..], c)
      case Some(i) => Some(i + 1)
      case None => None
  }

  /** The prefix of `s` before the first character of `stops`. */
  function UpTo(s: string, stops: set<char>): (r: string)
    ensures |r| <= |s| && r == s[..|r|]
    ensures forall i :: 0 <= i < |r| ==> r[i] !in stops
    ensures |r| < |s| ==> s[|r|] in stops
  {
    if |s| == 0 || s[0] in stops then "" else [s[0]] + UpTo(s[1..], stops)
  }

  /** A string without any of the stop characters is kept whole. */
  lemma {:induction false} UpToWhole(s: string, stops: set<char>)
    requires forall i :: 0 <= i < |s| ==> s[i] !in stops
    ensures UpTo(s, stops) == s
  {
    if |s| > 0 {
      UpToWhole(s[1..], stops);
    }
  }

  /** The scheme of a URI: the non-empty text before its first ':'. */
  function Scheme(uri: string): Option<string> {
    match IndexOf(uri, ':')
    case Some(i) => if i > 0 then Some(uri[..i]) else None
    case None => None
  }

  /** `explode(':', $uri, 2)[1]`: everything after the first ':'. */
  function AfterScheme(uri: string): string {
    match IndexOf(uri, ':')
    case Some(i) => uri[i + 1..]
    case None => ""
  }

  /** The path of a URI's hierarchical part: after an authority introduced by "//", before any '?' or '#'. */
  function PathOf(rest: string): string {
    var h := UpTo(rest, {'?', '#'});
    if |h| >= 2 && h[..2] == "//" then
      match IndexOf(h[2..], '/')
      case Some(i) => h[2..][i..]
      case None => ""
    else h
  }

  /** `explode('/', substr($uri, 7), 2)` for `entity:TYPE/ID`: the type and, when there is a '/', the id. */
  function EntityTarget(uri: string): (string, Option<string>) {
    var rest := if |uri| >= 7 then uri[7..] else "";
    match IndexOf(rest, '/')
    case Some(i) => (rest[..i], Some(rest[i + 1..]))
    case None => (rest, None)
  }

  /**
   * A URI has no scheme exactly when it holds no ':' or starts with one;
   * otherwise it is its scheme, which holds no ':', then ':' and the rest.
   */
  lemma SchemeRoundTrip(uri: string)
    ensures Scheme(uri).None? <==> (|uri| > 0 && uri[0] == ':') || ':' !in uri
    ensures Scheme(uri).Some? ==>
              && |Scheme(uri).value| > 0 && (forall i :: 0 <= i < |Scheme(uri).value| ==> Scheme(uri).value[i] != ':')
              && uri == Scheme(uri).value + ":" + AfterScheme(uri)
  {
    match IndexOf(uri, ':')
    case Some(i) =>
      assert uri == uri[..i] + [':'] + uri[i + 1..];
    case None =>
  }

  /** A path is no longer than the text it comes from and holds neither '?' nor '#'. */
  lemma PathOfBounds(rest: string)
    ensures |PathOf(rest)| <= |rest|
    ensures forall i :: 0 <= i < |PathOf(rest)| ==> PathOf(rest)[i] != '?' && PathOf(rest)[i] != '#'
  {
    var h := UpTo(rest, {'?', '#'});
    if |h| >= 2 && h[..2] == "//" {
      match IndexOf(h[2..], '/')
      case Some(i) =>
        forall k | 0 <= k < |h[2..][i..]| ensures h[2..][i..][k] == h[2 + i + k] { }
      case None =>
    }
  }

  /**
   * The type `explode` finds holds no '/', and the type, followed by '/' and
   * the id when there is one, is everything after `entity:`.
   */
  lemma EntityTargetRoundTrip(uri: string)
    ensures forall i :: 0 <= i < |EntityTarget(uri).0| ==> EntityTarget(uri).0[i] != '/'
    ensures var rest := if |uri| >= 7 then uri[7..] else "";
            (if EntityTarget(uri).1.Some? then EntityTarget(uri).0 + "/" + EntityTarget(uri).1.value
             else EntityTarget(uri).0) == rest
  {
    var rest := if |uri| >= 7 then uri[7..] else "";
    match IndexOf(rest, '/')
    case Some(i) =>
      assert rest == rest[..i] + "/" + rest[i + 1..];
    case None =>
  }

  /** The characters of the `ltrim` mask "route:". */
  const RouteMask: set<char> := {'r', 'o', 'u', 't', 'e', ':'}

  /** The node an `entity:` URI points to, when its type is `node` and it loads. */
  function LinkedNode(uri: string, nodes: Storage): Option<Entity> {
    var (entityType, entityId) := EntityTarget(uri);
    if entityType == "node" && entityId.Some? then Load(nodes, entityId.value) else None
  }

  // -----------------------------------------------------------------------
  // getUriAsDisplayableString
  // -----------------------------------------------------------------------

  /** `getUriAsDisplayableString`: the displayable form of a stored URI; see the lemmas below. */
  function DisplayableString(uri: string, nodes: Storage, entityLabel: Entity -> string): string {
    var scheme := Scheme(uri);
    if scheme == Some("internal") then
      var reference := AfterScheme(uri);
      if PathOf(reference) == "/" && |reference| > 0 then "<front>" + reference[1..]
      else reference
    else if scheme == Some("entity") then
      match LinkedNode(uri, nodes)
      case Some(node) => entityLabel(node)
      case None => uri
    else if scheme == Some("route") then
      LTrim(uri, RouteMask)
    else uri
  }

  /** A URI of any scheme other than `internal`, `entity` and `route`, or of none, is shown as it is. */
  lemma DisplayOtherScheme(uri: string, nodes: Storage, entityLabel: Entity -> string)
    requires Scheme(uri) != Some("internal") && Scheme(uri) != Some("entity") && Scheme(uri) != Some("route")
    ensures DisplayableString(uri, nodes, entityLabel) == uri
  {
  }

  /** The path `/` is never empty, so the front page case always has a reference to cut. */
  lemma PathSlashNonEmpty(reference: string)
    requires PathOf(reference) == "/"
    ensures |reference| > 0 && reference[0] == '/'
  {
    var h := UpTo(reference, {'?', '#'});
    if |h| >= 2 && h[..2] == "//" {
      var i := IndexOf(h[2..], '/').value;
      assert h[2..][i..] == "/";
    }
  }

  /** A URI with a scheme is that scheme, then ':' and what follows it. */
  lemma SchemeJoin(uri: string)
    requires Scheme(uri).Some?
    ensures uri == Scheme(uri).value + ":" + AfterScheme(uri)
  {
    var i := IndexOf(uri, ':').value;
    assert uri == uri[..i] + [':'] + uri[i + 1..];
  }

  /** An `internal:` URI whose path is not `/` loses its scheme. */
  lemma DisplayInternalOther(uri: string, nodes: Storage, entityLabel: Entity -> string)
    requires Scheme(uri) == Some("internal") && PathOf(AfterScheme(uri)) != "/"
    ensures uri == "internal:" + DisplayableString(uri, nodes, entityLabel)
  {
    SchemeJoin(uri);
    DisplayInternalSplit(AfterScheme(uri), nodes, entityLabel);
  }

  /** `internal:` and a reference starting with '/' is `internal:/` and the front page display minus `<front>`. */
  lemma FrontSplit(reference: string)
    requires |reference| > 0 && reference[0] == '/'
    ensures var r := "<front>" + reference[1..];
            |r| >= 7 && r[..7] == "<front>" && "internal" + ":" + reference == "internal:/" + r[7..]
  {
    var r := "<front>" + reference[1..];
    assert r[..7] == "<front>" && r[7..] == reference[1..];
    assert reference == "/" + reference[1..];
  }

  /** An `internal:` URI whose path is `/` shows as `<front>` followed by the reference after its leading '/'. */
  lemma DisplayInternalFront(uri: string, nodes: Storage, entityLabel: Entity -> string)
    requires Scheme(uri) == Some("internal") && PathOf(AfterScheme(uri)) == "/"
    ensures var r := DisplayableString(uri, nodes, entityLabel);
            |r| >= 7 && r[..7] == "<front>" && uri == "internal:/" + r[7..]
  {
    var reference := AfterScheme(uri);
    SchemeJoin(uri);
    PathSlashNonEmpty(reference);
    DisplayInternalSplit(reference, nodes, entityLabel);
    FrontSplit(reference);
  }

  /** An `entity:` URI shows the label of the node it links to when that node loads, and itself otherwise. */
  lemma DisplayEntity(uri: string, nodes: Storage, entityLabel: Entity -> string)
    requires Scheme(uri) == Some("entity")
    ensures DisplayableString(uri, nodes, entityLabel) ==
              if LinkedNode(uri, nodes).Some? then entityLabel(LinkedNode(uri, nodes).value) else uri
  {
  }

  /**
   * A `route:` URI loses its longest leading run of the characters of
   * "route:": the display is a suffix of the URI, everything cut is in
   * the mask, and the display does not start with a mask character.
   */
  lemma DisplayRoute(uri: string, nodes: Storage, entityLabel: Entity -> string)
    requires Scheme(uri) == Some("route")
    ensures var r := DisplayableString(uri, nodes, entityLabel);
            && |r| <= |uri| && r == uri[|uri| - |r|..]
            && (forall i :: 0 <= i < |uri| - |r| ==> uri[i] in RouteMask)
            && (|r| > 0 ==> r[0] !in RouteMask)
  {
  }

  /** The first `c` of `p + [c] + rest` is the one after `p` when `p` holds none. */
  lemma {:induction false} IndexOfAfter(p: string, c: char, rest: string)
    requires forall i :: 0 <= i < |p| ==> p[i] != c
    ensures IndexOf(p + [c] + rest, c) == Some(|p|)
  {
    if |p| > 0 {
      assert (p + [c] + rest)[1..] == p[1..] + [c] + rest;
      IndexOfAfter(p[1..], c, rest);
    }
  }

  /** A URI `scheme:rest` whose scheme holds no ':' splits into that scheme and `rest`. */
  lemma SchemeSplit(scheme: string, rest: string)
    requires |scheme| > 0 && forall i :: 0 <= i < |scheme| ==> scheme[i] != ':'
    ensures Scheme(scheme + ":" + rest) == Some(scheme)
    ensures AfterScheme(scheme + ":" + rest) == rest
  {
    IndexOfAfter(scheme, ':', rest);
    assert (scheme + ":" + rest)[..|scheme|] == scheme;
    assert (scheme + ":" + rest)[|scheme| + 1..] == rest;
  }

  /** An `internal:` URI is displayed by its path alone, or as `<front>` when that path is `/`. */
  lemma DisplayInternalSplit(rest: string, nodes: Storage, entityLabel: Entity -> string)
    ensures DisplayableString("internal" + ":" + rest, nodes, entityLabel) ==
              if PathOf(rest) == "/" && |rest| > 0 then "<front>" + rest[1..] else rest
  {
    SchemeSplit("internal", rest);
  }

  /** A `route:` URI is displayed as the URI with its leading mask characters trimmed. */
  lemma DisplayRouteSplit(rest: string, nodes: Storage, entityLabel: Entity -> string)
    ensures DisplayableString("route" + ":" + rest, nodes, entityLabel) == LTrim("route" + ":" + rest, RouteMask)
  {
    SchemeSplit("route", rest);
  }

  /** The front page, with any query or fragment after it, is shown as `<front>` followed by that query or fragment. */
  lemma DisplayFrontPage(query: string, nodes: Storage, entityLabel: Entity -> string)
    requires |query| == 0 || query[0] in {'?', '#'}
    ensures DisplayableString("internal" + ":" + ("/" + query), nodes, entityLabel) == "<front>" + query
  {
    var rest := "/" + query;
    DisplayInternalSplit(rest, nodes, entityLabel);
    assert rest[1..] == query;
    assert UpTo(rest, {'?', '#'}) == "/";
  }

  /**
   * Any other internal path without a query, a fragment or an authority is
   * shown as it is, without its scheme.
   */
  lemma DisplayInternalPath(path: string, nodes: Storage, entityLabel: Entity -> string)
    requires |path| >= 2 && path[0] == '/' && path[1] != '/'
    requires forall i :: 0 <= i < |path| ==> path[i] != '?' && path[i] != '#'
    ensures DisplayableString("internal" + ":" + path, nodes, entityLabel) == path
  {
    DisplayInternalSplit(path, nodes, entityLabel);
    UpToWhole(path, {'?', '#'});
    assert path[..2] != "//" by {
      assert path[..2][1] == path[1];
    }
  }

  /** `entity:TYPE/ID` names the entity type TYPE and the id ID when TYPE holds no '/'. */
  lemma EntityTargetSplit(entityType: string, id: string)
    requires forall i :: 0 <= i < |entityType| ==> entityType[i] != '/'
    ensures EntityTarget("entity" + ":" + (entityType + "/" + id)) == (entityType, Some(id))
  {
    var uri := "entity" + ":" + (entityType + "/" + id);
    assert uri[7..] == entityType + ['/'] + id;
    IndexOfAfter(entityType, '/', id);
    assert (entityType + ['/'] + id)[..|entityType|] == entityType;
    assert (entityType + ['/'] + id)[|entityType| + 1..] == id;
  }

  /** A node URI shows the node's label when the node loads, and the URI itself otherwise. */
  lemma DisplayNodeLink(id: string, nodes: Storage, entityLabel: Entity -> string)
    ensures var uri := "entity" + ":" + ("node" + "/" + id);
            DisplayableString(uri, nodes, entityLabel) == if id in nodes then entityLabel(nodes[id]) else uri
  {
    SchemeSplit("entity", "node" + "/" + id);
    EntityTargetSplit("node", id);
  }

  /**
   * QUIRK: `ltrim` takes "route:" as a set of characters, not as a prefix,
   * so a route name that starts with one of r, o, u, t, e also loses that
   * character (and any further ones of the mask).
   */
  lemma RouteMaskQuirk(c: char, rest: string, nodes: Storage, entityLabel: Entity -> string)
    requires c in RouteMask
    requires |rest| > 0 ==> rest[0] !in RouteMask
    ensures DisplayableString("route" + ":" + ([c] + rest), nodes, entityLabel) == rest
  {
    var name := [c] + rest;
    DisplayRouteSplit(name, nodes, entityLabel);
    LTrimSkip("route" + ":", name, RouteMask);
    assert name[1..] == rest;
  }

  /** The URI `route:entity.node.canonical` shows as `ntity.node.canonical`. */
  lemma RouteMaskQuirkExample(nodes: Storage, entityLabel: Entity -> string)
    ensures DisplayableString("route" + ":" + ("e" + "ntity.node.canonical"), nodes, entityLabel) == "ntity.node.canonical"
  {
    RouteMaskQuirk('e', "ntity.node.canonical", nodes, entityLabel);
  }

  /** The displayable form of a `route:` URI as evidently intended: the URI without its scheme. */
  function IntendedRouteDisplay(uri: string): (r: string)
    requires Scheme(uri) == Some("route")
    ensures "route:" + r == uri
  {
    assert IndexOf(uri, ':') == Some(5);
    uri[6..]
  }

  /** A route name that starts outside the mask is shown the same way by both. */
  lemma IntendedRouteDisplayAgrees(uri: string, nodes: Storage, entityLabel: Entity -> string)
    requires Scheme(uri) == Some("route")
    requires |uri| > 6 ==> uri[6] !in RouteMask
    ensures DisplayableString(uri, nodes, entityLabel) == IntendedRouteDisplay(uri)
  {
    var name := IntendedRouteDisplay(uri);
    LTrimPrefix("route:", name, RouteMask);
  }

  // -----------------------------------------------------------------------
  // The plugin's operations
  // -----------------------------------------------------------------------

  /** The display strings of a run of stored values, as the two loops below build them. */
  function Displayed(values: seq<string>, nodes: Storage, entityLabel: Entity -> string): (r: seq<string>)
    ensures |r| == |values|
  {
    if |values| == 0 then []
    else Displayed(values[..|values| - 1], nodes, entityLabel) + [DisplayableString(values[|values| - 1], nodes, entityLabel)]
  }

  /** The i-th display string is the display of the i-th stored value. */
  lemma {:induction false} DisplayedAt(values: seq<string>, nodes: Storage, entityLabel: Entity -> string)
    ensures forall i :: 0 <= i < |values| ==> Displayed(values, nodes, entityLabel)[i] == DisplayableString(values[i], nodes, entityLabel)
  {
    if |values| > 0 {
      var n := |values| - 1;
      DisplayedAt(values[..n], nodes, entityLabel);
      forall i | 0 <= i < n
        ensures values[..n][i] == values[i]
      {
      }
    }
  }

  /** `getDefaultValues`: the display strings of the stored default values, one per value, in order. */
  method GetDefaultValues(values: seq<string>, nodes: Storage, entityLabel: Entity -> string)
    returns (defaultValues: seq<string>)
    ensures defaultValues == Displayed(values, nodes, entityLabel)
    ensures |defaultValues| == |values|
    ensures forall i :: 0 <= i < |values| ==> defaultValues[i] == DisplayableString(values[i], nodes, entityLabel)
  {
    defaultValues := [];
    for i := 0 to |values|
      invariant defaultValues == Displayed(values[..i], nodes, entityLabel)
    {
      assert values[..i + 1][..i] == values[..i];
      defaultValues := defaultValues + [DisplayableString(values[i], nodes, entityLabel)];
    }
    assert values[..|values|] == values;
    DisplayedAt(values, nodes, entityLabel);
  }

  /** `getDefaultValuesLabel`: the display strings of the stored default values, in order, joined with ", ". */
  method GetDefaultValuesLabel(values: seq<string>, nodes: Storage, entityLabel: Entity -> string)
    returns (joined: string)
    ensures joined == Join(", ", Displayed(values, nodes, entityLabel))
  {
    var displayed: seq<string> := [];
    for i := 0 to |values|
      invariant displayed == Displayed(values[..i], nodes, entityLabel)
    {
      assert values[..i + 1][..i] == values[..i];
      displayed := displayed + [DisplayableString(values[i], nodes, entityLabel)];
    }
    assert values[..|values|] == values;
    joined := Join(", ", displayed);
  }

  /** `isset($a[$k])`: the key is present and its value is not NULL. */
  predicate Isset(a: seq<(Key, Value)>, k: Key) {
    Get(a, k).Some? && Get(a, k).value != Null
  }

  /** `$v[$k]` on a form element's value: the entry when `v` is an array holding `k`, NULL otherwise. */
  function Offset(v: Value, k: Key): Value {
    if v.Arr? && Get(v.entries, k).Some? then Get(v.entries, k).value else Null
  }

  /** The `link` sub-value the form state holds for one delta. */
  function LinkOf(formStateValues: seq<(Key, Value)>, delta: Key): Value {
    if Get(formStateValues, delta).Some? then Offset(Get(formStateValues, delta).value, StrKey("link")) else Null
  }

  /** Selects a submitted delta when the form state sets it, with that delta's `link` sub-value. */
  function LinkSelector(formStateValues: seq<(Key, Value)>): (Key, Value) -> Option<Value> {
    (delta: Key, value: Value) => if Isset(formStateValues, delta) then Some(LinkOf(formStateValues, delta)) else None
  }

  /** The prepared values: the deltas of `values` set in the form state, each with its link, in order. */
  function PreparedLinks(values: seq<(Key, Value)>, formStateValues: seq<(Key, Value)>): (r: seq<(Key, Value)>)
    ensures KeySet(r) <= KeySet(values)
  {
    MapFilterKeys(values, LinkSelector(formStateValues));
    MapFilter(values, LinkSelector(formStateValues))
  }

  /**
   * Exactly the deltas present in both the submitted values and the form
   * state are kept, each mapped to that delta's `link` sub-value, and no
   * delta occurs twice.
   */
  lemma PreparedLinksGet(values: seq<(Key, Value)>, formStateValues: seq<(Key, Value)>, delta: Key)
    requires DistinctKeys(values)
    ensures Get(PreparedLinks(values, formStateValues), delta) ==
              if delta in KeySet(values) && Isset(formStateValues, delta) then Some(LinkOf(formStateValues, delta)) else None
    ensures DistinctKeys(PreparedLinks(values, formStateValues))
  {
    MapFilterGet(values, LinkSelector(formStateValues), delta);
  }

  /**
   * `prepareDefaultFilterValues`: for every submitted delta that the form
   * state holds, that delta's `link` entry, keyed by the delta.
   */
  method PrepareDefaultFilterValues(values: seq<(Key, Value)>, formStateValues: seq<(Key, Value)>)
    returns (prepared: seq<(Key, Value)>)
    requires DistinctKeys(values)
    ensures prepared == PreparedLinks(values, formStateValues)
  {
    prepared := [];
    for i := 0 to |values|
      invariant prepared == PreparedLinks(values[..i], formStateValues)
    {
      var delta := values[i].0;
      MapFilterStep(values, LinkSelector(formStateValues), i);
      if Isset(formStateValues, delta) {
        prepared := Put(prepared, delta, LinkOf(formStateValues, delta));
      }
    }
    assert values[..|values|] == values;
  }

  /** `getFieldValues`: the `uri` of every stored item that has one, in item order. */
  function GetFieldValues(items: seq<Value>): seq<Value> {
    ArrayColumn(items, StrKey("uri"))
  }

  // -----------------------------------------------------------------------
  // The default-value form element
  // -----------------------------------------------------------------------

  /** The link-type setting values of a link field. */
  const LINK_INTERNAL: int := 0x01
  const LINK_EXTERNAL: int := 0x10
  const LINK_GENERIC: int := 0x11

  /** The settings of a link field the plugin reads. */
  datatype LinkFieldDefinition = LinkFieldDefinition(linkType: Option<int>)

  /** The default-value input element: its type and the properties the plugin sets. */
  datatype UriElement = UriElement(
    elementType: string,
    maxLength: int,
    linkType: Option<int>,
    targetType: Option<string>,
    processDefaultValue: Option<bool>)

  /**
   * `buildDefaultValueForm`: nothing without a field definition; otherwise a
   * node autocomplete for internal or generic links and a URL input for any
   * other link type, always with a maximum length of 2048 and the link type.
   */
  function BuildDefaultValueForm(fieldDefinition: Option<LinkFieldDefinition>): (r: Option<UriElement>)
    ensures r.None? <==> fieldDefinition.None?
    ensures r.Some? ==> r.value.maxLength == 2048 && r.value.linkType == fieldDefinition.value.linkType
    ensures r.Some? ==>
              (r.value.elementType == "entity_autocomplete" <==>
                 fieldDefinition.value.linkType in {Some(LINK_INTERNAL), Some(LINK_GENERIC)})
    ensures r.Some? && r.value.elementType == "entity_autocomplete" ==>
              r.value.targetType == Some("node") && r.value.processDefaultValue == Some(false)
    ensures r.Some? && r.value.elementType != "entity_autocomplete" ==>
              r.value.elementType == "url" && r.value.targetType.None? && r.value.processDefaultValue.None?
  {
    match fieldDefinition
    case None => None
    case Some(definition) =>
      var element := UriElement("url", 2048, definition.linkType, None, None);
      if definition.linkType == Some(LINK_INTERNAL) || definition.linkType == Some(LINK_GENERIC) then
        Some(element.(elementType := "entity_autocomplete", targetType := Some("node"), processDefaultValue := Some(false)))
      else Some(element)
  }
}
