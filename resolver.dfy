/**
 * Settings resolution (`getSchematicSettingsByAliasOrName`, build/index.ts).
 *
 * A settings layer maps collection names to schematic names to the details
 * of that schematic: an `alias` plus its default options. A selector gives an
 * alias, or an explicit collection and schematic name. Hits are memoised in a
 * cache keyed first by the layer's name and then by the alias or by
 * `"collection:name"`. In the source the cache is the module-level
 * `settingsCached`, which lives as long as the process and so can carry
 * hits from one build into the next; here it is the field of a resolver
 * object, and a build starts from whatever that field already holds.
 */
module Resolver {
  import opened Common

  /** One collection's entries, schematic name to details, in declaration order. */
  type Entries = seq<(string, Value)>

  /** A settings layer: collection name to entries, in declaration order. */
  type Layer = seq<(string, Entries)>

  /** `{ alias?, name?, collection? }` */
  datatype Selector = Selector(alias: Option<string>, name: Option<string>, collection: Option<string>)

  /** `ISchematicSettings`: the entry found, its options without `alias`. */
  datatype Resolved = Resolved(collection: string, schematicName: string, settings: Config)

  /** `settingsCached`: layer name to lookup key to the memoised hit. */
  type Cache = map<string, map<string, Resolved>>

  /** A hit of the scan and the key it is memoised under. */
  datatype Hit = Hit(result: Resolved, key: string)

  datatype LookupResult = LookupResult(result: Option<Resolved>, cache: Cache)

  /** The key a collection+name hit is memoised under. */
  function CacheKey(collection: string, name: string): string
  {
    collection + ":" + name
  }

  /** `alias` of `const { alias, ...settings } = details` */
  function AliasOf(details: Value): Value
  {
    if details.Obj? && "alias" in details.fields then details.fields["alias"] else Undefined
  }

  /** `settings` of `const { alias, ...settings } = details` */
  function SettingsOf(details: Value): (s: Config)
    ensures "alias" !in s
  {
    if details.Obj? then details.fields - {"alias"} else map[]
  }

  /** The entry's `alias` is the alias asked for. */
  predicate AliasMatch(sel: Selector, details: Value)
  {
    Present(sel.alias) && AliasOf(details) == Str(sel.alias.value)
  }

  /** The entry is the collection and schematic name asked for. */
  predicate NameMatch(sel: Selector, collection: string, schematicName: string)
  {
    Present(sel.name) && Present(sel.collection)
    && collection == sel.collection.value && schematicName == sel.name.value
  }

  /** The hit an entry yields; the alias test comes first, as in the source. */
  function HitOf(sel: Selector, collection: string, schematicName: string, details: Value): Hit
  {
    Hit(Resolved(collection, schematicName, SettingsOf(details)),
        if AliasMatch(sel, details) then sel.alias.value else CacheKey(collection, schematicName))
  }

  /** Scan of one collection's entries, last declared first. */
  function ScanEntries(collection: string, entries: Entries, sel: Selector): Option<Hit>
  {
    if entries == [] then None
    else
      var e := entries[|entries| - 1];
      if EntryMatches(sel, collection, e) then Some(HitOf(sel, collection, e.0, e.1))
      else
        ScanEntries(collection, entries[..|entries| - 1], sel)
  }

  /** Scan of a layer's collections, last declared first. */
  function ScanLayer(layer: Layer, sel: Selector): Option<Hit>
  {
    if layer == [] then None
    else
      var h := ScanEntries(layer[|layer| - 1].0, layer[|layer| - 1].1, sel);
      if h.Some? then h else ScanLayer(layer[..|layer| - 1], sel)
  }

  /** `if (!cached[layer]) cached[layer] = {}; cached[layer][key] = hit;` */
  function Store(cache: Cache, layerName: string, key: string, r: Resolved): (c: Cache)
    ensures c.Keys == cache.Keys + {layerName}
    ensures key in c[layerName] && c[layerName][key] == r
    ensures forall l :: l in cache && l != layerName ==> c[l] == cache[l]
    ensures layerName in cache ==> c[layerName].Keys == cache[layerName].Keys + {key}
    ensures layerName !in cache ==> c[layerName].Keys == {key}
  {
    var inner := if layerName in cache then cache[layerName] else map[];
    cache[layerName := inner[key := r]]
  }

  /** The lookup the source performs, with the cache before and after. */
  function Lookup(cache: Cache, sel: Selector, layerName: Option<string>, layer: Option<Layer>): (r: LookupResult)
    // nothing is found, and nothing cached, for an absent or empty layer or layer name ...
    ensures (layer.None? || |layer.value| == 0 || !Present(layerName)) ==> r == LookupResult(None, cache)
    // ... or for a selector with neither alias, name nor collection
    ensures (!Present(sel.alias) && !Present(sel.name) && !Present(sel.collection)) ==> r == LookupResult(None, cache)
    // a memoised "collection:name" hit answers before a memoised alias hit, and neither scans
    ensures && layer.Some? && |layer.value| > 0 && Present(layerName) && layerName.value in cache
            && Present(sel.collection) && Present(sel.name)
            && CacheKey(sel.collection.value, sel.name.value) in cache[layerName.value]
            ==> r == LookupResult(Some(cache[layerName.value][CacheKey(sel.collection.value, sel.name.value)]), cache)
    ensures && layer.Some? && |layer.value| > 0 && Present(layerName) && layerName.value in cache
            && !(Present(sel.collection) && Present(sel.name)
                 && CacheKey(sel.collection.value, sel.name.value) in cache[layerName.value])
            && Present(sel.alias) && sel.alias.value in cache[layerName.value]
            ==> r == LookupResult(Some(cache[layerName.value][sel.alias.value]), cache)
    // a memoised hit is only ever added: what was cached stays cached
    ensures forall l, k :: l in cache && k in cache[l] ==> l in r.cache && k in r.cache[l] && r.cache[l][k] == cache[l][k]
    // the cache changes only when something is found, by storing it in the named layer:
    // under the alias, or under "collection:name" for an entry that has that collection and name
    ensures r.cache == cache || (
      && r.result.Some? && Present(layerName)
      && (|| (Present(sel.alias) && r.cache == Store(cache, layerName.value, sel.alias.value, r.result.value))
          || (&& Present(sel.collection) && Present(sel.name)
              && r.result.value.collection == sel.collection.value
              && r.result.value.schematicName == sel.name.value
              && r.cache == Store(cache, layerName.value, CacheKey(sel.collection.value, sel.name.value), r.result.value))))
  {
    if layer.None? || |layer.value| == 0 || !Present(layerName) then LookupResult(None, cache)
    else if !Present(sel.alias) && !Present(sel.name) && !Present(sel.collection) then LookupResult(None, cache)
    else
      var ln := layerName.value;
      if Present(sel.collection) && Present(sel.name) && ln in cache
         && CacheKey(sel.collection.value, sel.name.value) in cache[ln]
      then
        LookupResult(Some(cache[ln][CacheKey(sel.collection.value, sel.name.value)]), cache)
      else if Present(sel.alias) && ln in cache && sel.alias.value in cache[ln] then
        LookupResult(Some(cache[ln][sel.alias.value]), cache)
      else
        var h := ScanLayer(layer.value, sel);
        if h.None? then LookupResult(None, cache)
        else
          ScanHitKey(layer.value, sel);
          LookupResult(Some(h.value.result), Store(cache, ln, h.value.key, h.value.result))
  }

  /** A hit is memoised under the alias when the alias matched, else under "collection:name". */
  lemma {:induction false} ScanHitKey(layer: Layer, sel: Selector)
    ensures var h := ScanLayer(layer, sel);
      h.Some? ==>
        || (Present(sel.alias) && h.value.key == sel.alias.value)
        || (Present(sel.collection) && Present(sel.name)
            && h.value.key == CacheKey(sel.collection.value, sel.name.value)
            && h.value.result.collection == sel.collection.value
            && h.value.result.schematicName == sel.name.value)
  {
    if layer != [] {
      var (collection, entries) := layer[|layer| - 1];
      ScanEntriesHitKey(collection, entries, sel);
      ScanHitKey(layer[..|layer| - 1], sel);
    }
  }

  /** A hit of one collection's entries carries the key it matched: the alias, or `collection:name`. */
  lemma {:induction false} ScanEntriesHitKey(collection: string, entries: Entries, sel: Selector)
    ensures var h := ScanEntries(collection, entries, sel);
      h.Some? ==>
        || (Present(sel.alias) && h.value.key == sel.alias.value)
        || (Present(sel.collection) && Present(sel.name)
            && h.value.key == CacheKey(sel.collection.value, sel.name.value)
            && h.value.result.collection == sel.collection.value
            && h.value.result.schematicName == sel.name.value)
  {
    if entries != [] {
      ScanEntriesHitKey(collection, entries[..|entries| - 1], sel);
    }
  }

  /** An entry `(schematic name, details)` of `collection` matches the selector. */
  predicate EntryMatches(sel: Selector, collection: string, entry: (string, Value))
  {
    AliasMatch(sel, entry.1) || NameMatch(sel, collection, entry.0)
  }

  /** No entry of the collection matches the selector. */
  ghost predicate NoMatchIn(collection: string, entries: Entries, sel: Selector)
  {
    forall j :: 0 <= j < |entries| ==> !EntryMatches(sel, collection, entries[j])
  }

  /** Entry `j` matches and no entry declared after it does. */
  ghost predicate LastMatchIn(collection: string, entries: Entries, sel: Selector, j: int)
  {
    && 0 <= j < |entries| && EntryMatches(sel, collection, entries[j])
    && NoMatchIn(collection, entries[j + 1..], sel)
  }

  /** Entry `j` of collection `i` matches, and no entry declared after it in the layer does. */
  ghost predicate LastMatchAt(layer: Layer, sel: Selector, i: int, j: int)
  {
    && 0 <= i < |layer| && LastMatchIn(layer[i].0, layer[i].1, sel, j)
    && forall k :: i < k < |layer| ==> NoMatchIn(layer[k].0, layer[k].1, sel)
  }

  /** The scan finds nothing exactly when no entry of any collection matches. */
  lemma {:induction false} ScanFindsNothing(layer: Layer, sel: Selector)
    ensures ScanLayer(layer, sel).None? <==> forall k :: 0 <= k < |layer| ==> NoMatchIn(layer[k].0, layer[k].1, sel)
  {
    if layer != [] {
      var n := |layer| - 1;
      ScanFindsNothing(layer[..n], sel);
      ScanEntriesFindsNothing(layer[n].0, layer[n].1, sel);
      assert layer == layer[..n] + [layer[n]];
    }
  }

  /** One collection's entries give no hit exactly when none of them matches. */
  lemma {:induction false} ScanEntriesFindsNothing(collection: string, entries: Entries, sel: Selector)
    ensures ScanEntries(collection, entries, sel).None? <==> NoMatchIn(collection, entries, sel)
  {
    if entries != [] {
      var n := |entries| - 1;
      ScanEntriesFindsNothing(collection, entries[..n], sel);
      assert entries == entries[..n] + [entries[n]];
    }
  }

  /**
   * A hit of the scan is the matching entry declared last: the last match
   * within the last collection that has one.
   */
  lemma {:induction false} ScanFindsLastMatch(layer: Layer, sel: Selector)
    requires ScanLayer(layer, sel).Some?
    ensures exists i, j ::
      && LastMatchAt(layer, sel, i, j)
      && ScanLayer(layer, sel).value == HitOf(sel, layer[i].0, layer[i].1[j].0, layer[i].1[j].1)
  {
    var n := |layer| - 1;
    var front := layer[..n];
    if ScanEntries(layer[n].0, layer[n].1, sel).Some? {
      ScanEntriesFindsLast(layer[n].0, layer[n].1, sel);
      var j :| && LastMatchIn(layer[n].0, layer[n].1, sel, j)
               && ScanEntries(layer[n].0, layer[n].1, sel).value == HitOf(sel, layer[n].0, layer[n].1[j].0, layer[n].1[j].1);
      assert LastMatchAt(layer, sel, n, j);
    } else {
      ScanEntriesFindsNothing(layer[n].0, layer[n].1, sel);
      ScanFindsLastMatch(front, sel);
      var i, j :| && LastMatchAt(front, sel, i, j)
                  && ScanLayer(front, sel).value == HitOf(sel, front[i].0, front[i].1[j].0, front[i].1[j].1);
      assert LastMatchAt(layer, sel, i, j);
    }
  }

  /** A hit of one collection's entries is the last entry that matches. */
  lemma {:induction false} ScanEntriesFindsLast(collection: string, entries: Entries, sel: Selector)
    requires ScanEntries(collection, entries, sel).Some?
    ensures exists j ::
      && LastMatchIn(collection, entries, sel, j)
      && ScanEntries(collection, entries, sel).value == HitOf(sel, collection, entries[j].0, entries[j].1)
  {
    var n := |entries| - 1;
    var front := entries[..n];
    if EntryMatches(sel, collection, entries[n]) {
      assert entries[n + 1..] == [];
      assert LastMatchIn(collection, entries, sel, n);
    } else {
      ScanEntriesFindsLast(collection, front, sel);
      var j :| && LastMatchIn(collection, front, sel, j)
               && ScanEntries(collection, front, sel).value == HitOf(sel, collection, front[j].0, front[j].1);
      assert entries[j + 1..] == front[j + 1..] + [entries[n]];
      assert LastMatchIn(collection, entries, sel, j);
    }
  }

  /** Repeating a lookup answers the same and leaves the cache as the first lookup left it. */
  lemma LookupIsMemoised(cache: Cache, sel: Selector, layerName: Option<string>, layer: Option<Layer>)
    ensures var first := Lookup(cache, sel, layerName, layer);
      Lookup(first.cache, sel, layerName, layer) == first
  {
    if layer.Some? {
      ScanHitKey(layer.value, sel);
    }
  }

  /** No memoised hit carries an `alias` option. */
  ghost predicate AliasFree(cache: Cache)
  {
    forall l, k :: l in cache && k in cache[l] ==> "alias" !in cache[l][k].settings
  }

  /** The settings a lookup returns never hold the `alias` key. */
  lemma LookupDropsAlias(cache: Cache, sel: Selector, layerName: Option<string>, layer: Option<Layer>)
    requires AliasFree(cache)
    ensures var r := Lookup(cache, sel, layerName, layer);
      AliasFree(r.cache) && (r.result.Some? ==> "alias" !in r.result.value.settings)
  {
    var r := Lookup(cache, sel, layerName, layer);
    if layer.Some? && ScanLayer(layer.value, sel).Some? {
      ScanFindsLastMatch(layer.value, sel);
    }
  }

  /**
   * The resolver object of one build: `cache` is the source's module-level
   * `settingsCached`.
   */
  class SettingsResolver {
    var cache: Cache

    constructor ()
      ensures cache == map[]
    {
      cache := map[];
    }

    /** `getSchematicSettingsByAliasOrName(_, sel, layerName, layer)` */
    method Resolve(sel: Selector, layerName: Option<string>, layer: Option<Layer>) returns (r: Option<Resolved>)
      modifies this
      ensures LookupResult(r, cache) == Lookup(old(cache), sel, layerName, layer)
    {
      if layer.None? || |layer.value| == 0 || !Present(layerName) {
        return None;
      }
      if !Present(sel.alias) && !Present(sel.name) && !Present(sel.collection) {
        return None;
      }
      var ln := layerName.value;
      if Present(sel.collection) && Present(sel.name) && ln in cache
         && CacheKey(sel.collection.value, sel.name.value) in cache[ln]
      {
        return Some(cache[ln][CacheKey(sel.collection.value, sel.name.value)]);
      }
      if Present(sel.alias) && ln in cache && sel.alias.value in cache[ln] {
        return Some(cache[ln][sel.alias.value]);
      }
      var h := FindSettings(layer.value, sel);
      if h.None? {
        return None;
      }
      ScanHitKey(layer.value, sel);
      if ln !in cache {
        cache := cache[ln := map[]];
      }
      cache := cache[ln := cache[ln][h.value.key := h.value.result]];
      return Some(h.value.result);
    }
  }

  /**
   * The two nested loops of the lookup: collections last to first, and each
   * collection's entries last to first; the first match ends the search.
   */
  method FindSettings(collections: Layer, sel: Selector) returns (h: Option<Hit>)
    ensures h == ScanLayer(collections, sel)
  {
    var i := |collections|;
    assert collections[..i] == collections;
    while i > 0
      invariant 0 <= i <= |collections|
      invariant ScanLayer(collections, sel) == ScanLayer(collections[..i], sel)
    {
      assert collections[..i][..i - 1] == collections[..i - 1];
      h := FindInCollection(collections[i - 1].0, collections[i - 1].1, sel);
      if h.Some? {
        return;
      }
      i := i - 1;
    }
    return None;
  }

  /** The inner loop of the resolver over one collection's schematic entries: the last match wins. */
  method FindInCollection(collection: string, entries: Entries, sel: Selector) returns (h: Option<Hit>)
    ensures h == ScanEntries(collection, entries, sel)
  {
    var j := |entries|;
    assert entries[..j] == entries;
    while j > 0
      invariant 0 <= j <= |entries|
      invariant ScanEntries(collection, entries, sel) == ScanEntries(collection, entries[..j], sel)
    {
      var schematicName := entries[j - 1].0;
      var details := entries[j - 1].1;
      assert entries[..j][..j - 1] == entries[..j - 1];
      var schematicAlias := AliasOf(details);
      var schematicSettings := SettingsOf(details);
      if Present(sel.alias) && schematicAlias == Str(sel.alias.value) {
        return Some(Hit(Resolved(collection, schematicName, schematicSettings), sel.alias.value));
      }
      if Present(sel.name) && Present(sel.collection)
         && collection == sel.collection.value && schematicName == sel.name.value
      {
        return Some(Hit(Resolved(collection, schematicName, schematicSettings), CacheKey(collection, schematicName)));
      }
      j := j - 1;
    }
    return None;
  }
}
