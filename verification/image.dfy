/**
 * Portrait extraction (`extract/image.py`): per-locale resolution of a base texture guid to
 * `{guid, file}` records, and the dispatch over the requested image options.
 */
module Image {
  import opened Wrappers
  import opened Outcomes
  import opened Unity
  import opened BundleStore
  import opened Manifest
  import opened Dicts
  import opened Guids
  import opened Options

  /** One locale's record: the guid used, and the written file or `None`. */
  datatype ImageEntry = ImageEntry(guid: Guid, file: Option<Path>)

  /** `<output>/<card_id>/image`. */
  function ImageDir(ctx: Context): Path {
    Join(Join(ctx.output, ctx.cardId), "image")
  }

  /** `<output>/<card_id>/image/<name>_<locale>.png`. */
  function PngPath(ctx: Context, name: string, locale: Locale): Path {
    Join(ImageDir(ctx), name + "_" + locale + ".png")
  }

  /**
   * The guid and bundle one locale resolves to: the base guid with `base_assets_catalog.get`,
   * replaced wholesale by the override record when the locale has one for the base guid.
   */
  function ImageTarget(ctx: Context, baseGuid: Guid, locale: Locale): (r: Result<(Guid, Option<string>), Failure>)
    ensures r.Err? <==> OverrideRaises(ctx.manifest.catalogLocale, locale, baseGuid)
    ensures r.Err? ==> r.error == Override(ctx.manifest.catalogLocale, locale, baseGuid).error
    ensures locale == BaseLocale ==> r == Ok((baseGuid, MapGet(ctx.manifest.baseCatalog, baseGuid)))
    ensures r.Ok? && locale != BaseLocale && baseGuid in ctx.manifest.catalogLocale[locale] ==>
      var e := ctx.manifest.catalogLocale[locale][baseGuid];
      r.value == (e.guid.value, Some(e.bundle.value))
    ensures r.Ok? && locale != BaseLocale && baseGuid !in ctx.manifest.catalogLocale[locale] ==>
      r.value == (baseGuid, MapGet(ctx.manifest.baseCatalog, baseGuid))
  {
    var o :- Override(ctx.manifest.catalogLocale, locale, baseGuid);
    match o
    case Some((guid, bundle)) => Ok((guid, Some(bundle)))
    case None => Ok((baseGuid, MapGet(ctx.manifest.baseCatalog, baseGuid)))
  }

  /**
   * The body of the `try`: open the bundle, take `container[guid]`, decode and save the image.
   * Any exception there is caught, so this only says whether the save happened.
   */
  predicate ImageSaved(ctx: Context, guid: Guid, bundle: string) {
    match LoadEnv(ctx.world, Bundle(ctx.input, bundle))
    case Err(_) => false
    case Ok(env) =>
      guid in env.container
      && Deref(env, env.container[guid]).Ok?
      && Deref(env, env.container[guid]).value.payload.imageDecodes
  }

  /**
   * One iteration of the locale loop of `extract_asset`. A falsy bundle gives `file: None`;
   * otherwise `file` is the `.png` path, kept as is under `no_assets` (nothing is created or
   * written) and reset to `None` when the save raises.
   */
  function ImageForLocale(ctx: Context, baseGuid: Guid, name: string, locale: Locale): (r: Step<ImageEntry>)
    ensures r.outcome.Err? <==> OverrideRaises(ctx.manifest.catalogLocale, locale, baseGuid)
    ensures r.outcome.Ok? ==> r.outcome.value.guid == ImageTarget(ctx, baseGuid, locale).value.0
    ensures r.outcome.Ok? && r.outcome.value.file.Some? ==> r.outcome.value.file.value == PngPath(ctx, name, locale)
    ensures r.outcome.Ok? && !Truthy(ImageTarget(ctx, baseGuid, locale).value.1) ==> r.outcome.value.file.None? && r.effects == []
    ensures r.outcome.Ok? && Truthy(ImageTarget(ctx, baseGuid, locale).value.1) && ctx.noAssets ==>
      r.outcome.value.file == Some(PngPath(ctx, name, locale))
    ensures r.outcome.Ok? && Truthy(ImageTarget(ctx, baseGuid, locale).value.1) && !ctx.noAssets ==>
      var (guid, bundle) := ImageTarget(ctx, baseGuid, locale).value;
      && (r.outcome.value.file == Some(PngPath(ctx, name, locale)) <==> ImageSaved(ctx, guid, bundle.value))
      && r.effects == [MakeDir(ImageDir(ctx))] + (if ImageSaved(ctx, guid, bundle.value) then [WriteFile(PngPath(ctx, name, locale))] else [])
    ensures ctx.noAssets ==> r.effects == []
    ensures forall e :: e in r.effects ==> e == MakeDir(ImageDir(ctx)) || e == WriteFile(PngPath(ctx, name, locale))
  {
    match ImageTarget(ctx, baseGuid, locale)
    case Err(f) => Step([], Err(f))
    case Ok((guid, bundle)) =>
      if !Truthy(bundle) then Step([], Ok(ImageEntry(guid, None)))
      else
        var path := PngPath(ctx, name, locale);
        if ctx.noAssets then Step([], Ok(ImageEntry(guid, Some(path))))
        else if ImageSaved(ctx, guid, bundle.value) then Step([MakeDir(ImageDir(ctx)), WriteFile(path)], Ok(ImageEntry(guid, Some(path))))
        else Step([MakeDir(ImageDir(ctx))], Ok(ImageEntry(guid, None)))
  }

  /** The locale loop over a prefix of `locale_options`, stopping at the first exception. */
  function ImageLoop(ctx: Context, baseGuid: Guid, name: string, locales: seq<Locale>): (r: Step<Dict<Locale, ImageEntry>>)
    ensures r.outcome.Ok? <==> forall l :: l in locales ==> ImageForLocale(ctx, baseGuid, name, l).outcome.Ok?
    ensures r.outcome.Ok? ==> KeySeq(r.outcome.value) == Dedup(locales)
    ensures r.outcome.Ok? ==> forall l :: l in locales ==>
      Get(r.outcome.value, l) == Some(ImageForLocale(ctx, baseGuid, name, l).outcome.value)
    ensures ctx.noAssets ==> r.effects == []
    decreases |locales|
  {
    if |locales| == 0 then Step([], Ok(Empty()))
    else
      var init := locales[..|locales| - 1];
      var locale := locales[|locales| - 1];
      assert locales == init + [locale];
      var prev := ImageLoop(ctx, baseGuid, name, init);
      if prev.outcome.Err? then prev
      else
        var s := ImageForLocale(ctx, baseGuid, name, locale);
        match s.outcome
        case Err(f) => Step(prev.effects + s.effects, Err(f))
        case Ok(entry) => Step(prev.effects + s.effects, Ok(Put(prev.outcome.value, locale, entry)))
  }

  /**
   * `extract_asset(context, base_guid, name)`: `{}` for a falsy base guid; otherwise one record
   * per requested locale, keyed in request order.
   */
  function ExtractAsset(ctx: Context, baseGuid: Option<Guid>, name: string): (r: Step<Dict<Locale, ImageEntry>>)
    ensures !Truthy(baseGuid) ==> r == Step([], Ok(Empty()))
    ensures Truthy(baseGuid) ==> r == ImageLoop(ctx, baseGuid.value, name, ctx.locales)
  {
    if !Truthy(baseGuid) then Step([], Ok(Empty())) else ImageLoop(ctx, baseGuid.value, name, ctx.locales)
  }

  /**
   * The base locale never reads the override catalog: its record is the same whatever
   * `asset_catalog_locale` holds, and it uses the base guid.
   */
  lemma BaseLocaleIgnoresOverrides(ctx: Context, baseGuid: Guid, name: string, catalog: map<Locale, map<Guid, LocaleEntry>>)
    ensures ImageForLocale(ctx, baseGuid, name, BaseLocale)
      == ImageForLocale(ctx.(manifest := ctx.manifest.(catalogLocale := catalog)), baseGuid, name, BaseLocale)
    ensures ImageForLocale(ctx, baseGuid, name, BaseLocale).outcome == Ok(ImageForLocale(ctx, baseGuid, name, BaseLocale).outcome.value)
    ensures ImageForLocale(ctx, baseGuid, name, BaseLocale).outcome.value.guid == baseGuid
  {
  }

  /**
   * The result of a successful `extract_asset` for a truthy base guid: its keys are exactly the
   * requested locales, and each record is the one that locale resolves to on its own, so the
   * failure of one locale's save cannot change another locale's record.
   */
  lemma {:induction false} ExtractAssetPerLocale(ctx: Context, baseGuid: Guid, name: string, l: Locale)
    requires ExtractAsset(ctx, Some(baseGuid), name).outcome.Ok?
    requires baseGuid != ""
    ensures forall k :: k in KeySeq(ExtractAsset(ctx, Some(baseGuid), name).outcome.value) <==> k in ctx.locales
    ensures l in ctx.locales ==>
      Get(ExtractAsset(ctx, Some(baseGuid), name).outcome.value, l) == Some(ImageForLocale(ctx, baseGuid, name, l).outcome.value)
  {
    var r := ImageLoop(ctx, baseGuid, name, ctx.locales);
    assert KeySeq(r.outcome.value) == Dedup(ctx.locales);
  }

  /**
   * One case of the option `match` of `extract_images`: an unknown option raises
   * `ArgumentTypeError`, a known one subscripts its CardDef field strictly and extracts the
   * portrait named by the field's guid.
   */
  function ImageOption(ctx: Context, cardFields: map<string, Scalar>, option: string): (r: Step<Dict<Locale, ImageEntry>>)
    ensures option !in ImageOptions ==> r == Step([], Err(UnknownImageOption(option)))
    ensures option in ImageOptions && ImageField(option).value !in cardFields ==> r == Step([], Err(KeyMissing(ImageField(option).value)))
    ensures option in ImageOptions && ImageField(option).value in cardFields ==>
      r == ExtractAsset(ctx, GetGuid(cardFields[ImageField(option).value]), option)
  {
    match ImageField(option)
    case None => Step([], Err(UnknownImageOption(option)))
    case Some(field) =>
      if field !in cardFields then Step([], Err(KeyMissing(field)))
      else ExtractAsset(ctx, GetGuid(cardFields[field]), option)
  }

  /** The option loop of `extract_images` over a prefix of the options, stopping at the first exception. */
  function ImagesLoop(ctx: Context, cardFields: map<string, Scalar>, options: seq<string>)
    : (r: Step<Dict<string, Dict<Locale, ImageEntry>>>)
    ensures r.outcome.Ok? ==> KeySeq(r.outcome.value) == Dedup(options)
    ensures ctx.noAssets ==> r.effects == []
    decreases |options|
  {
    if |options| == 0 then Step([], Ok(Empty()))
    else
      var init := options[..|options| - 1];
      var option := options[|options| - 1];
      assert options == init + [option];
      var prev := ImagesLoop(ctx, cardFields, init);
      if prev.outcome.Err? then prev
      else
        var s := ImageOption(ctx, cardFields, option);
        match s.outcome
        case Err(f) => Step(prev.effects + s.effects, Err(f))
        case Ok(d) => Step(prev.effects + s.effects, Ok(Put(prev.outcome.value, option, d)))
  }

  /**
   * The option loop succeeds exactly when every option does on its own, and then holds each
   * option's own portraits.
   */
  lemma {:induction false} ImagesLoopSpec(ctx: Context, cardFields: map<string, Scalar>, options: seq<string>)
    ensures ImagesLoop(ctx, cardFields, options).outcome.Ok? <==>
      forall o :: o in options ==> ImageOption(ctx, cardFields, o).outcome.Ok?
    ensures var r := ImagesLoop(ctx, cardFields, options);
      r.outcome.Ok? ==> forall o :: o in options ==> Get(r.outcome.value, o) == Some(ImageOption(ctx, cardFields, o).outcome.value)
    decreases |options|
  {
    if |options| > 0 {
      var init := options[..|options| - 1];
      var option := options[|options| - 1];
      assert options == init + [option];
      ImagesLoopSpec(ctx, cardFields, init);
    }
  }

  /**
   * What a successful option loop holds, in terms of the CardDef: every option is known, its
   * field exists, and its value is `extract_asset` on the guid of that field. An unknown option
   * anywhere makes the loop raise.
   */
  lemma ImagesLoopFields(ctx: Context, cardFields: map<string, Scalar>, options: seq<string>)
    ensures var r := ImagesLoop(ctx, cardFields, options);
      r.outcome.Ok? ==> forall o :: o in options ==>
        && o in ImageOptions && ImageField(o).value in cardFields
        && ExtractAsset(ctx, GetGuid(cardFields[ImageField(o).value]), o).outcome.Ok?
        && Get(r.outcome.value, o) == Some(ExtractAsset(ctx, GetGuid(cardFields[ImageField(o).value]), o).outcome.value)
    ensures (exists i :: 0 <= i < |options| && options[i] !in ImageOptions) ==> ImagesLoop(ctx, cardFields, options).outcome.Err?
  {
    ImagesLoopSpec(ctx, cardFields, options);
  }

  /**
   * The first option that raises decides the exception: when every option before position `k`
   * succeeds and option `k` raises, the loop raises what option `k` raises, and in particular
   * `ArgumentTypeError` when option `k` is unknown.
   */
  lemma {:induction false} ImagesLoopRaisesAt(ctx: Context, cardFields: map<string, Scalar>, options: seq<string>, k: nat)
    requires k < |options|
    requires forall i :: 0 <= i < k ==> ImageOption(ctx, cardFields, options[i]).outcome.Ok?
    requires ImageOption(ctx, cardFields, options[k]).outcome.Err?
    ensures ImagesLoop(ctx, cardFields, options).outcome == Err(ImageOption(ctx, cardFields, options[k]).outcome.error)
    ensures options[k] !in ImageOptions ==> ImagesLoop(ctx, cardFields, options).outcome == Err(UnknownImageOption(options[k]))
    decreases |options|
  {
    var init := options[..|options| - 1];
    var option := options[|options| - 1];
    assert options == init + [option];
    ImagesLoopSpec(ctx, cardFields, init);
    if k == |options| - 1 {
      forall o | o in init
        ensures ImageOption(ctx, cardFields, o).outcome.Ok?
      {
        var i :| 0 <= i < |init| && init[i] == o;
        assert options[i] == o;
      }
      assert ImagesLoop(ctx, cardFields, init).outcome.Ok?;
    } else {
      assert init[k] == options[k];
      ImagesLoopRaisesAt(ctx, cardFields, init, k);
    }
  }

  /** `<output>/<card_id>/image/struct.json`. */
  function StructPath(ctx: Context): Path {
    Join(ImageDir(ctx), "struct.json")
  }

  /**
   * `extract_images(context, card_def, options)`: `{}` with no effect for empty options; otherwise
   * the option loop, followed by the `struct.json` dump when `enable_sub_struct` is set.
   */
  function ExtractImages(ctx: Context, cardFields: map<string, Scalar>, options: seq<string>)
    : (r: Step<Dict<string, Dict<Locale, ImageEntry>>>)
    ensures |options| == 0 ==> r == Step([], Ok(Empty()))
    ensures r.outcome == (if |options| == 0 then Ok(Empty()) else ImagesLoop(ctx, cardFields, options).outcome)
    ensures ctx.noAssets && !ctx.enableSubStruct ==> r.effects == []
    ensures |options| > 0 && r.outcome.Ok? && ctx.enableSubStruct ==>
      r.effects == ImagesLoop(ctx, cardFields, options).effects + [MakeDir(ImageDir(ctx)), WriteFile(StructPath(ctx))]
    ensures WriteFile(StructPath(ctx)) in r.effects && !(WriteFile(StructPath(ctx)) in ImagesLoop(ctx, cardFields, options).effects) ==>
      ctx.enableSubStruct && r.outcome.Ok?
    ensures ctx.noAssets ==> forall e :: e in r.effects ==> e == MakeDir(ImageDir(ctx)) || e == WriteFile(StructPath(ctx))
  {
    if |options| == 0 then Step([], Ok(Empty()))
    else
      var s := ImagesLoop(ctx, cardFields, options);
      if s.outcome.Ok? && ctx.enableSubStruct then
        Step(s.effects + [MakeDir(ImageDir(ctx)), WriteFile(StructPath(ctx))], s.outcome)
      else s
  }
}
