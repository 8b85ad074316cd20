/**
 * Card-sound-spell audio extraction (`extract/audio/card_sound_spell.py`): sound units with
 * per-locale guids and `.wav` files, and the reshaping of a CardSoundSpell record around them.
 */
module Audio {
  import opened Wrappers
  import opened Outcomes
  import opened Text
  import opened Unity
  import opened BundleStore
  import opened Manifest
  import opened Dicts
  import opened Common

  /** One sound unit: the base guid and weight, and per locale the guid used and the files listed. */
  datatype SoundUnit = SoundUnit(
    baseGuid: Guid,
    weight: real,
    localeGuid: Dict<Locale, Guid>,
    localeFiles: Dict<Locale, seq<Path>>)

  /** What `extract_asset` returns: the list of units, or `{}` when some entry has an empty guid. */
  datatype AssetUnits = Units(units: seq<SoundUnit>) | NoAudio

  /** A specific voice-over entry after reshaping: `sound_def` replaced by `sound_units`. */
  datatype SpecificOut = SpecificOut(
    soundUnits: AssetUnits,
    gameStringKey: Option<string>,
    gameStringValue: map<Locale, string>,
    condition: Condition)

  /** The reshaped CardSoundSpell record; both parts absent is the empty dict. */
  datatype SpellOut = SpellOut(normal: Option<AssetUnits>, specific: Option<seq<SpecificOut>>)

  /** `<output>/<card_id>/audio/<option>`. */
  function AudioDir(ctx: Context, option: string): Path {
    Join(Join(Join(ctx.output, ctx.cardId), "audio"), option)
  }

  /** The file name of sample `i` of unit `j` in one locale: prefix, unit number, locale and sample number. */
  function WavName(prefix: string, j: nat, locale: Locale, i: nat): string {
    prefix + "_" + NatStr(j) + "_" + locale + NatStr(i) + ".wav"
  }

  /** One path per decoded sample, numbered from 1, in sample order. */
  function SampleFiles(dir: Path, prefix: string, j: nat, locale: Locale, n: nat): (files: seq<Path>)
    ensures |files| == n
    ensures forall i :: 0 <= i < n ==> files[i] == Join(dir, WavName(prefix, j, locale, i + 1))
    decreases n
  {
    if n == 0 then [] else SampleFiles(dir, prefix, j, locale, n - 1) + [Join(dir, WavName(prefix, j, locale, n))]
  }

  /**
   * The guid and bundle one locale resolves to. The base bundle lookup is strict, so a base
   * guid missing from `base_assets_catalog` raises even when the locale overrides it.
   */
  function AudioTarget(ctx: Context, baseGuid: Guid, locale: Locale): (r: Result<(Guid, string), Failure>)
    ensures r.Err? <==> baseGuid !in ctx.manifest.baseCatalog || OverrideRaises(ctx.manifest.catalogLocale, locale, baseGuid)
    ensures baseGuid !in ctx.manifest.baseCatalog ==> r == Err(KeyMissing(baseGuid))
    ensures r.Ok? && (locale == BaseLocale || baseGuid !in ctx.manifest.catalogLocale[locale]) ==>
      r.value == (baseGuid, ctx.manifest.baseCatalog[baseGuid])
    ensures r.Ok? && locale != BaseLocale && baseGuid in ctx.manifest.catalogLocale[locale] ==>
      var e := ctx.manifest.catalogLocale[locale][baseGuid];
      r.value == (e.guid.value, e.bundle.value)
  {
    if baseGuid !in ctx.manifest.baseCatalog then Err(KeyMissing(baseGuid))
    else
      var o :- Override(ctx.manifest.catalogLocale, locale, baseGuid);
      match o
      case Some(pair) => Ok(pair)
      case None => Ok((baseGuid, ctx.manifest.baseCatalog[baseGuid]))
  }

  /**
   * How many samples the audio asset `guid` of `bundle` decodes to: the bundle is loaded, the
   * guid's container PPtr followed, and the object decoded. Each of the three steps can raise.
   */
  function SampleCount(ctx: Context, guid: Guid, bundle: string): (r: Result<nat, Failure>)
    ensures r.Ok? ==> LoadEnv(ctx.world, Bundle(ctx.input, bundle)).Ok?
    ensures r.Ok? ==> var env := LoadEnv(ctx.world, Bundle(ctx.input, bundle)).value;
      guid in env.container && Deref(env, env.container[guid]).Ok?
      && Deref(env, env.container[guid]).value.payload.samples == Some(r.value)
    ensures LoadEnv(ctx.world, Bundle(ctx.input, bundle)).Ok? ==>
      var env := LoadEnv(ctx.world, Bundle(ctx.input, bundle)).value;
      guid in env.container && Deref(env, env.container[guid]).Ok? && Deref(env, env.container[guid]).value.payload.samples.Some? ==>
        r == Ok(Deref(env, env.container[guid]).value.payload.samples.value)
    ensures LoadEnv(ctx.world, Bundle(ctx.input, bundle)).Err? ==> r == Err(LoadEnv(ctx.world, Bundle(ctx.input, bundle)).error)
  {
    var env :- LoadEnv(ctx.world, Bundle(ctx.input, bundle));
    if guid !in env.container then Err(KeyMissing(guid))
    else
      var obj :- Deref(env, env.container[guid]);
      match obj.payload.samples
      case None => Err(DecodeFailed)
      case Some(n) => Ok(n)
  }

  /**
   * One locale of unit `j`: the guid used and one `.wav` path per decoded sample. The paths are
   * listed under `no_assets` too, but only written without it.
   */
  function LocaleFiles(ctx: Context, dir: Path, prefix: string, j: nat, baseGuid: Guid, locale: Locale)
    : (r: Step<(Guid, seq<Path>)>)
    ensures r.outcome.Ok? <==>
      AudioTarget(ctx, baseGuid, locale).Ok?
      && SampleCount(ctx, AudioTarget(ctx, baseGuid, locale).value.0, AudioTarget(ctx, baseGuid, locale).value.1).Ok?
    ensures r.outcome.Ok? ==>
      var (guid, bundle) := AudioTarget(ctx, baseGuid, locale).value;
      && r.outcome.value.0 == guid
      && r.outcome.value.1 == SampleFiles(dir, prefix, j, locale, SampleCount(ctx, guid, bundle).value)
    ensures r.effects == (if ctx.noAssets || r.outcome.Err? then [] else Writes(r.outcome.value.1))
  {
    match AudioTarget(ctx, baseGuid, locale)
    case Err(f) => Step([], Err(f))
    case Ok((guid, bundle)) =>
      match SampleCount(ctx, guid, bundle)
      case Err(f) => Step([], Err(f))
      case Ok(n) =>
        var files := SampleFiles(dir, prefix, j, locale, n);
        Step(if ctx.noAssets then [] else Writes(files), Ok((guid, files)))
  }

  /** The locale loop that fills one unit, over a prefix of `locale_options`. */
  function BuildUnit(ctx: Context, dir: Path, prefix: string, j: nat, e: SoundDefEntry, locales: seq<Locale>)
    : (r: Step<SoundUnit>)
    ensures r.outcome.Ok? ==> r.outcome.value.baseGuid == e.guid && r.outcome.value.weight == e.weight
    ensures ctx.noAssets ==> r.effects == []
    decreases |locales|
  {
    if |locales| == 0 then Step([], Ok(SoundUnit(e.guid, e.weight, Empty(), Empty())))
    else
      var locale := locales[|locales| - 1];
      var prev := BuildUnit(ctx, dir, prefix, j, e, locales[..|locales| - 1]);
      if prev.outcome.Err? then prev
      else
        var s := LocaleFiles(ctx, dir, prefix, j, e.guid, locale);
        if s.outcome.Err? then Step(prev.effects + s.effects, Err(s.outcome.error))
        else
          var u := prev.outcome.value;
          Step(prev.effects + s.effects,
               Ok(u.(localeGuid := Put(u.localeGuid, locale, s.outcome.value.0),
                     localeFiles := Put(u.localeFiles, locale, s.outcome.value.1))))
  }

  /** The locale loop succeeds exactly when every requested locale resolves. */
  lemma {:induction false} BuildUnitSucceeds(ctx: Context, dir: Path, prefix: string, j: nat, e: SoundDefEntry, locales: seq<Locale>)
    ensures BuildUnit(ctx, dir, prefix, j, e, locales).outcome.Ok? <==>
      forall l :: l in locales ==> LocaleFiles(ctx, dir, prefix, j, e.guid, l).outcome.Ok?
    decreases |locales|
  {
    if |locales| > 0 {
      var init := locales[..|locales| - 1];
      var locale := locales[|locales| - 1];
      assert locales == init + [locale];
      BuildUnitSucceeds(ctx, dir, prefix, j, e, init);
    }
  }

  /** A unit the locale loop builds is keyed by the requested locales in first-request order. */
  lemma {:induction false} BuildUnitKeys(ctx: Context, dir: Path, prefix: string, j: nat, e: SoundDefEntry, locales: seq<Locale>)
    ensures var r := BuildUnit(ctx, dir, prefix, j, e, locales);
      r.outcome.Ok? ==>
        KeySeq(r.outcome.value.localeGuid) == Dedup(locales) && KeySeq(r.outcome.value.localeFiles) == Dedup(locales)
    decreases |locales|
  {
    if |locales| > 0 {
      var init := locales[..|locales| - 1];
      var locale := locales[|locales| - 1];
      assert locales == init + [locale];
      BuildUnitKeys(ctx, dir, prefix, j, e, init);
      DedupSnoc(init, locale);
      var r := BuildUnit(ctx, dir, prefix, j, e, locales);
      if r.outcome.Ok? {
        var prev := BuildUnit(ctx, dir, prefix, j, e, init);
        var s := LocaleFiles(ctx, dir, prefix, j, e.guid, locale);
        assert prev.outcome.Ok? && s.outcome.Ok?;
        var u := prev.outcome.value;
        assert r.outcome.value.localeGuid == Put(u.localeGuid, locale, s.outcome.value.0);
        assert r.outcome.value.localeFiles == Put(u.localeFiles, locale, s.outcome.value.1);
      }
    }
  }

  /** Every requested locale of a built unit holds that locale's own guid and files. */
  lemma {:induction false} BuildUnitEntries(ctx: Context, dir: Path, prefix: string, j: nat, e: SoundDefEntry, locales: seq<Locale>)
    ensures var r := BuildUnit(ctx, dir, prefix, j, e, locales);
      r.outcome.Ok? ==> forall l :: l in locales ==>
        && LocaleFiles(ctx, dir, prefix, j, e.guid, l).outcome.Ok?
        && Get(r.outcome.value.localeGuid, l) == Some(LocaleFiles(ctx, dir, prefix, j, e.guid, l).outcome.value.0)
        && Get(r.outcome.value.localeFiles, l) == Some(LocaleFiles(ctx, dir, prefix, j, e.guid, l).outcome.value.1)
    decreases |locales|
  {
    if |locales| > 0 {
      var init := locales[..|locales| - 1];
      var locale := locales[|locales| - 1];
      assert locales == init + [locale];
      BuildUnitEntries(ctx, dir, prefix, j, e, init);
      assert forall l :: l in locales <==> l in init || l == locale;
    }
  }

  /**
   * The locale loop succeeds exactly when every requested locale resolves; the unit is then keyed
   * by the requested locales in first-request order, each holding that locale's own guid and files.
   */
  lemma BuildUnitLocales(ctx: Context, dir: Path, prefix: string, j: nat, e: SoundDefEntry, locales: seq<Locale>)
    ensures var r := BuildUnit(ctx, dir, prefix, j, e, locales);
      r.outcome.Ok? <==> forall l :: l in locales ==> LocaleFiles(ctx, dir, prefix, j, e.guid, l).outcome.Ok?
    ensures var r := BuildUnit(ctx, dir, prefix, j, e, locales);
      r.outcome.Ok? ==>
        && KeySeq(r.outcome.value.localeGuid) == Dedup(locales)
        && KeySeq(r.outcome.value.localeFiles) == Dedup(locales)
        && forall l :: l in locales ==>
          && Get(r.outcome.value.localeGuid, l) == Some(LocaleFiles(ctx, dir, prefix, j, e.guid, l).outcome.value.0)
          && Get(r.outcome.value.localeFiles, l) == Some(LocaleFiles(ctx, dir, prefix, j, e.guid, l).outcome.value.1)
  {
    BuildUnitSucceeds(ctx, dir, prefix, j, e, locales);
    BuildUnitKeys(ctx, dir, prefix, j, e, locales);
    BuildUnitEntries(ctx, dir, prefix, j, e, locales);
  }

  /** Position of the first entry with an empty guid, or the number of entries when there is none. */
  function FirstEmpty(entries: seq<SoundDefEntry>): (i: nat)
    ensures i <= |entries|
    ensures forall k :: 0 <= k < i ==> entries[k].guid != ""
    ensures i < |entries| ==> entries[i].guid == ""
    decreases |entries|
  {
    if |entries| == 0 then 0 else if entries[0].guid == "" then 0 else 1 + FirstEmpty(entries[1..])
  }

  /**
   * The unit loop of `extract_asset` over a prefix of the entries, numbering units from 1: an
   * entry with an empty guid turns the whole result into `{}` and stops the loop.
   */
  function BuildUnits(ctx: Context, dir: Path, prefix: string, entries: seq<SoundDefEntry>): (r: Step<AssetUnits>)
    ensures ctx.noAssets ==> r.effects == []
    decreases |entries|
  {
    if |entries| == 0 then Step([], Ok(Units([])))
    else
      var n := |entries|;
      var e := entries[n - 1];
      var prev := BuildUnits(ctx, dir, prefix, entries[..n - 1]);
      if prev.outcome.Err? || prev.outcome.value.NoAudio? then prev
      else if e.guid == "" then Step(prev.effects, Ok(NoAudio))
      else
        var s := BuildUnit(ctx, dir, prefix, n, e, ctx.locales);
        if s.outcome.Err? then Step(prev.effects + s.effects, Err(s.outcome.error))
        else Step(prev.effects + s.effects, Ok(Units(prev.outcome.value.units + [s.outcome.value])))
  }

  /**
   * The unit loop succeeds exactly when every unit before the first empty guid builds; it then
   * returns `{}` exactly when there is an empty guid, and otherwise unit `k` is entry `k` built
   * with number `k + 1`.
   */
  lemma {:induction false} BuildUnitsSpec(ctx: Context, dir: Path, prefix: string, entries: seq<SoundDefEntry>)
    ensures var r := BuildUnits(ctx, dir, prefix, entries);
      r.outcome.Ok? <==> forall k :: 0 <= k < FirstEmpty(entries) ==> BuildUnit(ctx, dir, prefix, k + 1, entries[k], ctx.locales).outcome.Ok?
    ensures var r := BuildUnits(ctx, dir, prefix, entries);
      r.outcome.Ok? ==> (r.outcome.value.NoAudio? <==> FirstEmpty(entries) < |entries|)
    ensures var r := BuildUnits(ctx, dir, prefix, entries);
      r.outcome.Ok? && r.outcome.value.Units? ==>
        && |r.outcome.value.units| == |entries|
        && forall k :: 0 <= k < |entries| ==>
          && BuildUnit(ctx, dir, prefix, k + 1, entries[k], ctx.locales).outcome.Ok?
          && r.outcome.value.units[k] == BuildUnit(ctx, dir, prefix, k + 1, entries[k], ctx.locales).outcome.value
    decreases |entries|
  {
    if |entries| > 0 {
      var n := |entries|;
      var init := entries[..n - 1];
      var e := entries[n - 1];
      assert forall k :: 0 <= k < n - 1 ==> init[k] == entries[k];
      BuildUnitsSpec(ctx, dir, prefix, init);
      FirstEmptySnoc(entries);
      var p := BuildUnits(ctx, dir, prefix, init);
      var r := BuildUnits(ctx, dir, prefix, entries);
      var fi := FirstEmpty(init);
      if p.outcome.Err? {
        assert r == p;
        var k :| 0 <= k < fi && !BuildUnit(ctx, dir, prefix, k + 1, init[k], ctx.locales).outcome.Ok?;
        assert !BuildUnit(ctx, dir, prefix, k + 1, entries[k], ctx.locales).outcome.Ok?;
      } else if p.outcome.value.NoAudio? {
        assert r == p;
        assert FirstEmpty(entries) == fi;
      } else if e.guid == "" {
        assert r.outcome == Ok(NoAudio);
        assert FirstEmpty(entries) == n - 1;
      } else {
        assert FirstEmpty(entries) == n;
        var s := BuildUnit(ctx, dir, prefix, n, e, ctx.locales);
        assert BuildUnit(ctx, dir, prefix, (n - 1) + 1, entries[n - 1], ctx.locales) == s;
        if s.outcome.Ok? {
          var units := p.outcome.value.units + [s.outcome.value];
          assert r.outcome == Ok(Units(units));
          forall k | 0 <= k < n
            ensures BuildUnit(ctx, dir, prefix, k + 1, entries[k], ctx.locales).outcome.Ok?
            ensures units[k] == BuildUnit(ctx, dir, prefix, k + 1, entries[k], ctx.locales).outcome.value
          {
            if k < n - 1 {
              assert init[k] == entries[k];
            }
          }
        }
      }
    }
  }

  /** The first empty guid of a sequence extended by one entry. */
  lemma FirstEmptySnoc(entries: seq<SoundDefEntry>)
    requires |entries| > 0
    ensures var n := |entries|; var fi := FirstEmpty(entries[..n - 1]);
      FirstEmpty(entries) == if fi < n - 1 then fi else if entries[n - 1].guid == "" then n - 1 else n
  {
    var n := |entries|;
    var init := entries[..n - 1];
    var fi := FirstEmpty(init);
    var f := FirstEmpty(entries);
    assert forall k :: 0 <= k < n - 1 ==> init[k] == entries[k];
    if fi < n - 1 {
      assert entries[fi].guid == "";
      assert f <= fi;
    }
  }

  /**
   * `extract_asset(context, guid_weight_map, option, prefix)`: creates the option directory
   * unless `no_assets`, then builds one unit per entry.
   */
  function ExtractAsset(ctx: Context, entries: seq<SoundDefEntry>, option: string, prefix: string): (r: Step<AssetUnits>)
    ensures r.outcome == BuildUnits(ctx, AudioDir(ctx, option), prefix, entries).outcome
    ensures ctx.noAssets ==> r.effects == []
    ensures !ctx.noAssets ==> |r.effects| > 0 && r.effects[0] == MakeDir(AudioDir(ctx, option))
  {
    var dir := AudioDir(ctx, option);
    var s := BuildUnits(ctx, dir, prefix, entries);
    Step((if ctx.noAssets then [] else [MakeDir(dir)]) + s.effects, s.outcome)
  }

  /**
   * A successful `extract_asset` whose entries all have a guid lists one unit per entry, in
   * order, each carrying its entry's guid and weight, keyed by exactly the requested locales,
   * with the locale override applied and one 1-based `.wav` path per decoded sample.
   */
  lemma ExtractAssetUnits(ctx: Context, entries: seq<SoundDefEntry>, option: string, prefix: string, k: nat, l: Locale)
    requires ExtractAsset(ctx, entries, option, prefix).outcome.Ok?
    requires forall i :: 0 <= i < |entries| ==> entries[i].guid != ""
    requires k < |entries| && l in ctx.locales
    ensures ExtractAsset(ctx, entries, option, prefix).outcome.value.Units?
    ensures var us := ExtractAsset(ctx, entries, option, prefix).outcome.value.units;
      && |us| == |entries|
      && us[k].baseGuid == entries[k].guid
      && us[k].weight == entries[k].weight
      && (forall x :: x in KeySeq(us[k].localeGuid) <==> x in ctx.locales)
      && (forall x :: x in KeySeq(us[k].localeFiles) <==> x in ctx.locales)
    ensures AudioTarget(ctx, entries[k].guid, l).Ok?
    ensures var u := ExtractAsset(ctx, entries, option, prefix).outcome.value.units[k];
      var (guid, bundle) := AudioTarget(ctx, entries[k].guid, l).value;
      && Get(u.localeGuid, l) == Some(guid)
      && (l == BaseLocale ==> guid == entries[k].guid)
      && SampleCount(ctx, guid, bundle).Ok?
      && Get(u.localeFiles, l).Some?
      && |Get(u.localeFiles, l).value| == SampleCount(ctx, guid, bundle).value
      && forall i :: 0 <= i < |Get(u.localeFiles, l).value| ==>
        Get(u.localeFiles, l).value[i] == Join(AudioDir(ctx, option), WavName(prefix, k + 1, l, i + 1))
  {
    var dir := AudioDir(ctx, option);
    BuildUnitsSpec(ctx, dir, prefix, entries);
    assert FirstEmpty(entries) == |entries|;
    var r := BuildUnits(ctx, dir, prefix, entries);
    BuildUnitLocales(ctx, dir, prefix, k + 1, entries[k], ctx.locales);
  }

  /** An empty guid anywhere makes a successful `extract_asset` return `{}`, discarding earlier units. */
  lemma EmptyGuidDiscardsUnits(ctx: Context, entries: seq<SoundDefEntry>, option: string, prefix: string, k: nat)
    requires ExtractAsset(ctx, entries, option, prefix).outcome.Ok?
    requires k < |entries| && entries[k].guid == ""
    ensures ExtractAsset(ctx, entries, option, prefix).outcome.value == NoAudio
  {
    BuildUnitsSpec(ctx, AudioDir(ctx, option), prefix, entries);
  }

  /** The prefix of the normal sound units: `<prefix>_normal`. */
  function NormalPrefix(prefix: string): string {
    prefix + "_normal"
  }

  /** The prefix of the i-th (1-based) specific entry's sound units: `<prefix>_specific_<i>`. */
  function SpecificPrefix(prefix: string, i: nat): string {
    prefix + "_specific_" + NatStr(i)
  }

  /** The loop over the specific entries: each gets `sound_units` in place of `sound_def`. */
  function ReshapeSpecific(ctx: Context, vos: seq<SpecificVo>, option: string, prefix: string)
    : (r: Step<seq<SpecificOut>>)
    ensures ctx.noAssets ==> r.effects == []
    decreases |vos|
  {
    if |vos| == 0 then Step([], Ok([]))
    else
      var n := |vos|;
      var vo := vos[n - 1];
      var prev := ReshapeSpecific(ctx, vos[..n - 1], option, prefix);
      if prev.outcome.Err? then prev
      else
        var s := ExtractAsset(ctx, vo.soundDef, option, SpecificPrefix(prefix, n));
        if s.outcome.Err? then Step(prev.effects + s.effects, Err(s.outcome.error))
        else
          Step(prev.effects + s.effects,
               Ok(prev.outcome.value + [SpecificOut(s.outcome.value, vo.gameStringKey, vo.gameStringValue, vo.condition)]))
  }

  /**
   * The specific loop succeeds exactly when every entry's `extract_asset` does; entry `i` then
   * keeps its key, text and condition and gets the units built under `<prefix>_specific_<i+1>`.
   */
  lemma {:induction false} ReshapeSpecificSpec(ctx: Context, vos: seq<SpecificVo>, option: string, prefix: string)
    ensures var r := ReshapeSpecific(ctx, vos, option, prefix);
      r.outcome.Ok? <==> forall i :: 0 <= i < |vos| ==> ExtractAsset(ctx, vos[i].soundDef, option, SpecificPrefix(prefix, i + 1)).outcome.Ok?
    ensures var r := ReshapeSpecific(ctx, vos, option, prefix);
      r.outcome.Ok? ==>
        && |r.outcome.value| == |vos|
        && forall i :: 0 <= i < |vos| ==>
          && ExtractAsset(ctx, vos[i].soundDef, option, SpecificPrefix(prefix, i + 1)).outcome.Ok?
          && r.outcome.value[i] == SpecificOut(
            ExtractAsset(ctx, vos[i].soundDef, option, SpecificPrefix(prefix, i + 1)).outcome.value,
            vos[i].gameStringKey, vos[i].gameStringValue, vos[i].condition)
    decreases |vos|
  {
    if |vos| > 0 {
      var n := |vos|;
      var init := vos[..n - 1];
      var vo := vos[n - 1];
      assert forall i :: 0 <= i < n - 1 ==> init[i] == vos[i];
      ReshapeSpecificSpec(ctx, init, option, prefix);
      var p := ReshapeSpecific(ctx, init, option, prefix);
      var s := ExtractAsset(ctx, vo.soundDef, option, SpecificPrefix(prefix, n));
      var r := ReshapeSpecific(ctx, vos, option, prefix);
      assert ExtractAsset(ctx, vos[n - 1].soundDef, option, SpecificPrefix(prefix, (n - 1) + 1)) == s;
      if p.outcome.Err? {
        assert r == p;
        var k :| 0 <= k < n - 1 && !ExtractAsset(ctx, init[k].soundDef, option, SpecificPrefix(prefix, k + 1)).outcome.Ok?;
        assert !ExtractAsset(ctx, vos[k].soundDef, option, SpecificPrefix(prefix, k + 1)).outcome.Ok?;
      } else if s.outcome.Ok? {
        var out := p.outcome.value + [SpecificOut(s.outcome.value, vo.gameStringKey, vo.gameStringValue, vo.condition)];
        assert r.outcome == Ok(out);
        forall i | 0 <= i < n
          ensures ExtractAsset(ctx, vos[i].soundDef, option, SpecificPrefix(prefix, i + 1)).outcome.Ok?
          ensures out[i] == SpecificOut(
            ExtractAsset(ctx, vos[i].soundDef, option, SpecificPrefix(prefix, i + 1)).outcome.value,
            vos[i].gameStringKey, vos[i].gameStringValue, vos[i].condition)
        {
          if i < n - 1 {
            assert init[i] == vos[i];
          }
        }
      }
    }
  }

  /**
   * The reshaping of a non-empty CardSoundSpell record: `normal.sound_def` becomes
   * `normal.sound_units` with prefix `<prefix>_normal`, and each specific entry gets its own
   * numbered prefix.
   */
  function Reshape(ctx: Context, spell: SoundSpell, option: string, prefix: string): (r: Step<SpellOut>)
    ensures r.outcome.Ok? ==> (r.outcome.value.normal.Some? <==> spell.normal.Some?)
    ensures r.outcome.Ok? && spell.normal.Some? ==>
      && ExtractAsset(ctx, spell.normal.value, option, NormalPrefix(prefix)).outcome.Ok?
      && r.outcome.value.normal.value == ExtractAsset(ctx, spell.normal.value, option, NormalPrefix(prefix)).outcome.value
    ensures r.outcome.Ok? ==> (r.outcome.value.specific.Some? <==> spell.specific.Some?)
    ensures r.outcome.Ok? && spell.specific.Some? ==>
      && ReshapeSpecific(ctx, spell.specific.value, option, prefix).outcome.Ok?
      && r.outcome.value.specific.value == ReshapeSpecific(ctx, spell.specific.value, option, prefix).outcome.value
    ensures r.outcome.Ok? <==>
      && (spell.normal.None? || ExtractAsset(ctx, spell.normal.value, option, NormalPrefix(prefix)).outcome.Ok?)
      && (spell.specific.None? || ReshapeSpecific(ctx, spell.specific.value, option, prefix).outcome.Ok?)
    ensures spell.normal.Some? && ExtractAsset(ctx, spell.normal.value, option, NormalPrefix(prefix)).outcome.Err? ==>
      r.outcome == Err(ExtractAsset(ctx, spell.normal.value, option, NormalPrefix(prefix)).outcome.error)
    ensures ctx.noAssets ==> r.effects == []
  {
    var n := if spell.normal.Some? then ExtractAsset(ctx, spell.normal.value, option, NormalPrefix(prefix)) else Step([], Ok(NoAudio));
    if n.outcome.Err? then Step(n.effects, Err(n.outcome.error))
    else
      var normal := if spell.normal.Some? then Some(n.outcome.value) else None;
      if spell.specific.None? then Step(n.effects, Ok(SpellOut(normal, None)))
      else
        var s := ReshapeSpecific(ctx, spell.specific.value, option, prefix);
        match s.outcome
        case Err(f) => Step(n.effects + s.effects, Err(f))
        case Ok(specific) => Step(n.effects + s.effects, Ok(SpellOut(normal, Some(specific))))
  }

  /** The empty record `{}`. */
  function EmptySpell(): SpellOut {
    SpellOut(None, None)
  }

  /**
   * `extract_card_sound_spell(context, guid, option, prefix)`: the strict base-bundle lookup,
   * then `CardSoundSpell`; `None` or an empty record gives `{}` and writes nothing, anything
   * else is reshaped.
   */
  function ExtractCardSoundSpell(ctx: Context, guid: Guid, option: string, prefix: string): (r: Step<SpellOut>)
    ensures guid !in ctx.manifest.baseCatalog ==> r.outcome == Err(KeyMissing(guid))
    ensures guid in ctx.manifest.baseCatalog ==>
      var spell := CardSoundSpell(ctx.world, Bundle(ctx.input, ctx.manifest.baseCatalog[guid]), guid, ctx.gameplayAudio);
      && (spell.Err? ==> r == Step([], Err(spell.error)))
      && (spell == Ok(None) || spell == Ok(Some(SoundSpell(None, None))) ==> r == Step([], Ok(EmptySpell())))
      && (spell.Ok? && spell.value.Some? && spell.value.value != SoundSpell(None, None) ==>
            r == Reshape(ctx, spell.value.value, option, prefix))
    ensures ctx.noAssets ==> r.effects == []
  {
    if guid !in ctx.manifest.baseCatalog then Step([], Err(KeyMissing(guid)))
    else
      match CardSoundSpell(ctx.world, Bundle(ctx.input, ctx.manifest.baseCatalog[guid]), guid, ctx.gameplayAudio)
      case Err(f) => Step([], Err(f))
      case Ok(None) => Step([], Ok(EmptySpell()))
      case Ok(Some(spell)) =>
        if spell == SoundSpell(None, None) then Step([], Ok(EmptySpell()))
        else Reshape(ctx, spell, option, prefix)
  }

  /*
   * `no_assets` only suppresses effects: every record, unit, guid and listed path is the same.
   */

  /** One locale resolves to the same guid and paths whatever `no_assets` is. */
  lemma LocaleFilesIgnoresNoAssets(ctx: Context, b: bool, dir: Path, prefix: string, j: nat, baseGuid: Guid, locale: Locale)
    ensures LocaleFiles(ctx.(noAssets := b), dir, prefix, j, baseGuid, locale).outcome == LocaleFiles(ctx, dir, prefix, j, baseGuid, locale).outcome
  {
    var c := ctx.(noAssets := b);
    assert AudioTarget(c, baseGuid, locale) == AudioTarget(ctx, baseGuid, locale);
  }

  /** The locale loop builds the same unit whatever `no_assets` is. */
  lemma {:induction false} BuildUnitIgnoresNoAssets(ctx: Context, b: bool, dir: Path, prefix: string, j: nat, e: SoundDefEntry, locales: seq<Locale>)
    ensures BuildUnit(ctx.(noAssets := b), dir, prefix, j, e, locales).outcome == BuildUnit(ctx, dir, prefix, j, e, locales).outcome
    decreases |locales|
  {
    if |locales| > 0 {
      var locale := locales[|locales| - 1];
      BuildUnitIgnoresNoAssets(ctx, b, dir, prefix, j, e, locales[..|locales| - 1]);
      LocaleFilesIgnoresNoAssets(ctx, b, dir, prefix, j, e.guid, locale);
    }
  }

  /** The unit loop builds the same units (or `{}`) whatever `no_assets` is. */
  lemma {:induction false} BuildUnitsIgnoresNoAssets(ctx: Context, b: bool, dir: Path, prefix: string, entries: seq<SoundDefEntry>)
    ensures BuildUnits(ctx.(noAssets := b), dir, prefix, entries).outcome == BuildUnits(ctx, dir, prefix, entries).outcome
    decreases |entries|
  {
    if |entries| > 0 {
      BuildUnitsIgnoresNoAssets(ctx, b, dir, prefix, entries[..|entries| - 1]);
      BuildUnitIgnoresNoAssets(ctx, b, dir, prefix, |entries|, entries[|entries| - 1], ctx.locales);
    }
  }

  /** The specific loop builds the same entries whatever `no_assets` is. */
  lemma {:induction false} ReshapeSpecificIgnoresNoAssets(ctx: Context, b: bool, vos: seq<SpecificVo>, option: string, prefix: string)
    ensures ReshapeSpecific(ctx.(noAssets := b), vos, option, prefix).outcome == ReshapeSpecific(ctx, vos, option, prefix).outcome
    decreases |vos|
  {
    if |vos| > 0 {
      ReshapeSpecificIgnoresNoAssets(ctx, b, vos[..|vos| - 1], option, prefix);
      BuildUnitsIgnoresNoAssets(ctx, b, AudioDir(ctx, option), SpecificPrefix(prefix, |vos|), vos[|vos| - 1].soundDef);
    }
  }

  /** The reshaped record is the same whatever `no_assets` is. */
  lemma ReshapeIgnoresNoAssets(ctx: Context, b: bool, spell: SoundSpell, option: string, prefix: string)
    ensures Reshape(ctx.(noAssets := b), spell, option, prefix).outcome == Reshape(ctx, spell, option, prefix).outcome
  {
    var c := ctx.(noAssets := b);
    assert AudioDir(c, option) == AudioDir(ctx, option);
    if spell.normal.Some? {
      BuildUnitsIgnoresNoAssets(ctx, b, AudioDir(ctx, option), NormalPrefix(prefix), spell.normal.value);
    }
    if spell.specific.Some? {
      ReshapeSpecificIgnoresNoAssets(ctx, b, spell.specific.value, option, prefix);
    }
  }

  /**
   * `extract_card_sound_spell` returns the same record with and without `no_assets`, listing the
   * same `.wav` paths; with it, nothing is created or written.
   */
  lemma NoAssetsSameRecord(ctx: Context, guid: Guid, option: string, prefix: string)
    ensures ExtractCardSoundSpell(ctx.(noAssets := true), guid, option, prefix).outcome
      == ExtractCardSoundSpell(ctx.(noAssets := false), guid, option, prefix).outcome
    ensures ExtractCardSoundSpell(ctx.(noAssets := true), guid, option, prefix).effects == []
  {
    var t := ctx.(noAssets := true);
    var f := ctx.(noAssets := false);
    assert t == f.(noAssets := true);
    if guid in ctx.manifest.baseCatalog {
      var spell := CardSoundSpell(ctx.world, Bundle(ctx.input, ctx.manifest.baseCatalog[guid]), guid, ctx.gameplayAudio);
      if spell.Ok? && spell.value.Some? {
        ReshapeIgnoresNoAssets(f, true, spell.value.value, option, prefix);
      }
    }
  }
}
