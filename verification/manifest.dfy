/**
 * The asset manifest, the per-card extraction context (`CardContext`), and the locale
 * override rule shared by image and audio resolution.
 */
module Manifest {
  import opened Wrappers
  import opened Outcomes
  import opened Unity
  import opened BundleStore

  type Locale = string

  /** The base locale: never overridden. */
  const BaseLocale: Locale := "enus"

  /**
   * One `asset_catalog_locale[locale][base_guid]` record: its `guid` and `bundle` keys, each
   * `None` when the record lacks it.
   */
  datatype LocaleEntry = LocaleEntry(guid: Option<Guid>, bundle: Option<string>)

  /** A record lacking a key that the override rule subscripts strictly. */
  predicate Incomplete(e: LocaleEntry) {
    e.guid.None? || e.bundle.None?
  }

  /**
   * The override rule raises `KeyError`: for a locale other than `enus` that has no catalog, or
   * whose catalog holds the base guid with an incomplete record.
   */
  predicate OverrideRaises(catalog: map<Locale, map<Guid, LocaleEntry>>, locale: Locale, baseGuid: Guid) {
    locale != BaseLocale
    && (locale !in catalog || (baseGuid in catalog[locale] && Incomplete(catalog[locale][baseGuid])))
  }

  /**
   * `AssetManifest`: card id to root guid (possibly `None`), base guid to bundle file name,
   * and locale to base guid to override record.
   */
  datatype AssetManifest = AssetManifest(
    cardsMap: map<string, Option<Guid>>,
    baseCatalog: map<Guid, string>,
    catalogLocale: map<Locale, map<Guid, LocaleEntry>>)

  /** `CardContext` plus the file system it reads from (`ensure_ascii` and `merged_struct` are unused here). */
  datatype Context = Context(
    world: World,
    input: Path,
    output: Path,
    manifest: AssetManifest,
    locales: seq<Locale>,
    cardId: string,
    noAssets: bool,
    enableSubStruct: bool,
    gameplayAudio: Option<map<string, map<Locale, string>>>)

  /**
   * The locale override rule: a locale other than `enus` looks its catalog up strictly, and when
   * that catalog holds the base guid, the record's `guid` and then its `bundle` are read strictly
   * and replace the base pair. `None` keeps the base pair.
   */
  function Override(catalog: map<Locale, map<Guid, LocaleEntry>>, locale: Locale, baseGuid: Guid)
    : (r: Result<Option<(Guid, string)>, Failure>)
    ensures locale == BaseLocale ==> r == Ok(None)
    ensures r.Err? <==> OverrideRaises(catalog, locale, baseGuid)
    ensures locale != BaseLocale && locale !in catalog ==> r == Err(KeyMissing(locale))
    ensures r.Err? && locale in catalog ==>
      r == Err(KeyMissing(if catalog[locale][baseGuid].guid.None? then "guid" else "bundle"))
    ensures r.Ok? ==> (r.value.Some? <==> locale != BaseLocale && baseGuid in catalog[locale])
    ensures r.Ok? && r.value.Some? ==>
      r.value.value == (catalog[locale][baseGuid].guid.value, catalog[locale][baseGuid].bundle.value)
  {
    if locale == BaseLocale then Ok(None)
    else if locale !in catalog then Err(KeyMissing(locale))
    else if baseGuid !in catalog[locale] then Ok(None)
    else
      var e := catalog[locale][baseGuid];
      if e.guid.None? then Err(KeyMissing("guid"))
      else if e.bundle.None? then Err(KeyMissing("bundle"))
      else Ok(Some((e.guid.value, e.bundle.value)))
  }
}
