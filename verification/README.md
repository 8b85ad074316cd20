# HearthCardAssetExtractor: asset-graph resolution and locale overrides, in Dafny

This project models the part of HearthCardAssetExtractor that turns a card id into media descriptors,
and proves properties of that model. It covers four pieces:

- **Bundle access** (`CommonUnity3d`). A bundle handle is memoised by resolved path. Each bundle has a `path_id` index
  from object ids to objects. `CardDef` walks from a card's root GameObject to its CardDef through component slot 1.
  `CardSoundSpell` and `_sound_def` go further: AudioSource, then `m_GameObject`, then component slot 2, then the
  SoundDef, then its clip list with weights. Any zero or missing id short-circuits.
- **Portraits** (`extract/image.py`). For every requested locale, the base texture guid becomes a `{guid, file}`
  record:
  - `enus` keeps the base guid and bundle. Any other locale takes the override entry when its catalog holds the
    base guid.
  - A falsy bundle gives `file: None`.
  - The file is `<output>/<card_id>/image/<name>_<locale>.png`.
  - Under `no_assets` nothing is created or written.
  
  `extract_images` dispatches the `normal` and `signature` options.
- **Card sound spells** (`extract/audio/card_sound_spell.py`). Each SoundDef entry becomes a sound unit with
  per-locale guids and 1-based `<prefix>_<j>_<locale><i>.wav` paths, one per decoded sample. The CardSoundSpell
  record is reshaped so that `sound_units` replaces `sound_def`.
- **Dispatch** (`cli.py`). It covers `get_guid`, the option-to-field tables, and unknown-option errors.
  `extract_card` runs for one card, and `main` runs every card inside its own `try`.

The model is purely functional.

- **Exceptions.** Every exception the code lets escape is a `Result` error.
- **File-system effects.** The `mkdir` calls and file writes are an explicit effect log. A `Step` holds that log
  together with the value or exception, so "nothing is written under `no_assets`" is a statement about the log.
- **Loaded bundles.** A bundle that loads is a value `Env`: its objects in file order and its container map. The
  file system is a map from canonical path to `Env`, plus an uninterpreted canonicalisation that stands for
  `Path.resolve`.
- **Decoders.** The image and audio decoders are fields of each object (`Payload`), so they are arbitrary per object.
- **Insertion order.** Python dicts whose insertion order shows in the output are `Dicts.Dict`. Assigning an existing
  key replaces its value in place; assigning a new key appends it.

Modules, in dependency order:

- `Wrappers`/`Outcomes` (wrappers.dfy)
- `Text` (text.dfy)
- `Dicts` (dicts.dfy)
- `Unity` (unity.dfy)
- `BundleStore` (bundle_store.dfy)
- `Manifest` (manifest.dfy)
- `Common` (common.dfy)
- `Guids`/`Options` (guids.dfy)
- `Image` (image.dfy)
- `Audio` (audio.dfy)
- `Cli` (cli.dfy)

## Model

| member | source | states |
|---|---|---|
| Unity.PathIdIndex | src/unity3d/common.py:67-72 | Every object's `path_id` is in the index. Every index entry is an object of `env.objects` carrying that id. When ids repeat, the last object with the id wins. |
| Unity.Hop | src/unity3d/common.py:136-138 | `safe_get(self.path_id, p)` after a truthiness test: an object exactly when `p` is nonzero and some object carries it, and then that object. |
| Unity.Deref | src/unity3d/common.py:79-89 | Following a container PPtr succeeds exactly when its path id is nonzero and some object carries it, and then yields that object. An empty PPtr (path id 0) raises even when an object carries id 0, as the guard at common.py:88 notes. |
| BundleStore.LoadEnv | src/unity3d/common.py:60-62 | `UnityPy.load` of the resolved path succeeds exactly when that path holds a loadable bundle. Otherwise it raises for that path. |
| BundleStore.Open | src/unity3d/common.py:47-52 | The cache stays injective. The resolved path maps to the returned handle. A hit leaves the cache unchanged. A miss adds exactly the resolved path, with a handle distinct from every cached one. Old entries never change. |
| BundleStore.OpenTwiceSameHandle | src/unity3d/common.py:47-52 | Constructing twice with the same resolved `folder/Data/Win/filename` returns the identical handle, and the second construction changes nothing. |
| BundleStore.OpenDistinctPaths | src/unity3d/common.py:47-52 | Two different resolved paths get distinct handles, and the first path's handle survives opening the second. |
| Manifest.Override | src/extract/image.py:31-32 | The locale override rule. `enus` is never overridden. Any other locale raises `KeyError` when it is not in `asset_catalog_locale`. An override happens exactly when the locale's map holds the base guid, and it replaces the base pair by that record's `guid` and `bundle`. A record lacking `guid` raises for `guid`; one lacking only `bundle` raises for `bundle`. |
| Common.CardDefIn | src/unity3d/common.py:78-83 | A guid missing from the container raises. The result is `None` exactly when slot 1's `m_PathID` is missing or zero. Otherwise it is the record of an object carrying that id, and it raises when no object carries it. |
| Common.CardDef | src/unity3d/common.py:78-83 | `CardDef` on a handle raises a load failure, or walks the loaded bundle as `CardDefIn` does. |
| Common.SoundDefObject | src/unity3d/common.py:133-157 | The SoundDef object is found exactly when each of these is nonzero and names an object: the AudioSource id, the `m_GameObject` id and the slot-2 id. The object found is the one carrying the slot-2 id of the GameObject's `m_Component`. Otherwise the result is `None`. |
| Common.LeafEntries | src/unity3d/common.py:158-166 | A truthy `m_AudioClip` gives exactly one entry, of weight 1, whose guid is the text after its last `:`. It shadows `m_RandomClips`. Without it, the entries are those of the random clips. Without either, there are none. |
| Common.ClipsOf | src/unity3d/common.py:160-164 | One entry per clip with a truthy `m_Clip`: the count is the list length minus the clips lacking `m_Clip`. Each entry is the last `:` segment and weight of such a clip. |
| Common.ClipsOfConcat | src/unity3d/common.py:161-164 | The clip filter distributes over concatenation, so the entries keep the clips' order. |
| Common.ClipsOfSingle | src/unity3d/common.py:162-163 | One clip contributes exactly its own entry, or nothing when `m_Clip` is falsy. |
| Common.SoundDef | src/unity3d/common.py:133-166 | `_sound_def` is empty whenever the SoundDef object is not reached. When it is reached, the result is that object's alternatives. |
| Common.SpecificOf | src/unity3d/common.py:104-128 | The voice-over loop keeps one record per entry with a truthy AudioSource id and a non-empty SoundDef, and every kept record has a non-empty `sound_def`. `GameStringValue` is `gameplay_audio.get(key, {})`. Without a gameplay-audio table it raises exactly when some entry survives. |
| Common.SpecificOfConcat | src/unity3d/common.py:106-128 | The voice-over loop distributes over concatenation: survivors keep their order. |
| Common.SpecificOfSingle | src/unity3d/common.py:107-128 | One voice-over entry contributes its record exactly when it survives. |
| Common.CountKeptZero | src/unity3d/common.py:129-130 | The survivor count is zero exactly when no entry survives, so `specific` is set exactly when some entry does. |
| Common.SpellOf | src/unity3d/common.py:100-131 | `normal` is present exactly when the normal SoundDef is non-empty, and then holds it. `specific` is present exactly when the list exists and some entry survives, and then holds the survivors in order. The record raises exactly when survivors exist but there is no gameplay-audio table. |
| Common.CardSoundSpellIn | src/unity3d/common.py:88-99 | `None` when the guid has no container entry or a zero one, when slot 1 is empty, or when the record lacks `m_CardSoundData`. Otherwise it is the record `SpellOf` builds, and errors of the walk propagate. |
| Common.CardSoundSpell | src/unity3d/common.py:85-99 | A falsy guid gives `None` without loading the bundle. Otherwise a load failure raises, or the loaded bundle is walked. |
| Text.Split | src/cli.py:22 | `str.split` on one separator: at least one part, no part holds the separator, joining the parts gives the string back, and there is one part exactly when the separator is absent. |
| Text.SplitJoin | src/cli.py:22 | Splitting a separator-free join gives the parts back. |
| Text.LastSegmentIsSuffix | src/unity3d/common.py:159 | `split(':')[-1]` holds no `:`. It is the whole string when there is no `:`, and otherwise what follows the last `:`. |
| Guids.GetGuid | src/cli.py:21-24 | `None` for a non-string or a string without `:`, and otherwise a colon-free segment. |
| Guids.GetGuidOfComposite | src/cli.py:22-23 | For `prefix:guid` followed by nothing or by `:`, with colon-free prefix and guid, the result is that guid: the second segment, not the rest of the string. |
| Guids.GetGuidIsSecondSegment | src/cli.py:22-23 | Conversely, a found guid is exactly what sits between the first `:` and the next `:` or the end. |
| Options.ImageField | src/cli.py:41-50 | `normal` reads `m_PortraitTexturePath` and `signature` reads `m_SignaturePortraitTexturePath`. No other image option is known. |
| Options.AudioField | src/cli.py:52-71 | Exactly the eight audio options are known. |
| Options.OptionTablesInjective | src/cli.py:41-71 | Distinct known options read distinct CardDef fields. |
| Options.SingleValuedAudioOptions | src/cli.py:52-71 | Exactly `attack`, `death` and `lifetime` read a single effect definition. The other five read lists. |
| Image.ImageTarget | src/extract/image.py:28-32 | For `enus`, the base guid with `base_assets_catalog.get`. Elsewhere, the override record's guid and bundle when the base guid is in that locale's map, or the base pair when it is not. The result raises exactly when the override rule does: for a non-`enus` locale missing from the catalog, or for an override record lacking `guid` or `bundle`. |
| Image.ImageForLocale | src/extract/image.py:29-54 | Raises exactly when the override rule does. The guid is the resolved guid, and `file` is `None` or the `<name>_<locale>.png` path. A falsy bundle gives `file: None` and no effect. Under `no_assets` the path is kept and nothing happens. Otherwise the image directory is created and `file` is the `.png` path exactly when the save succeeds; the `.png` is written exactly then, and `file` is `None` when the save raises. |
| Image.ImageLoop | src/extract/image.py:28-55 | Succeeds exactly when every locale does. The keys are the locales in first-request order, each holding its own record. Under `no_assets` nothing is created or written. |
| Image.ExtractAsset | src/extract/image.py:17-55 | A falsy base guid gives `{}` with no effect. Otherwise the result is the locale loop. |
| Image.BaseLocaleIgnoresOverrides | src/extract/image.py:29-31 | The `enus` record never raises, uses the base guid, and is the same whatever the override catalog holds. |
| Image.ExtractAssetPerLocale | src/extract/image.py:47-54 | The result's keys are exactly the requested locales. Each record is the one that locale resolves to on its own, so one locale's failed save cannot change another's. |
| Image.ImagesLoop | src/extract/image.py:66-75 | On success the keys are the options in first-request order, and under `no_assets` the loop has no effect. |
| Image.ImagesLoopSpec | src/extract/image.py:66-75 | The loop succeeds exactly when every option does on its own, and then each option's value is that option's own result. |
| Image.ImagesLoopFields | src/extract/image.py:66-75 | On success:<br>• every option is known and its field exists;<br>• each value is `extract_asset` on the `get_guid` of the option's field.<br>Any unknown option makes the loop raise. |
| Image.ImageOption | src/extract/image.py:67-75 | An unknown option raises `ArgumentTypeError` with no effect. A known option whose CardDef field is absent raises `KeyError` for that field. Otherwise the result is `extract_asset` on the `get_guid` of the field, named by the option. |
| Image.ImagesLoopRaisesAt | src/extract/image.py:66-75 | When every option before position `k` succeeds and option `k` raises, the loop raises option `k`'s exception; for an unknown option that is `ArgumentTypeError`. |
| Image.ExtractImages | src/extract/image.py:58-83 | Empty options give `{}` with no effect and no `struct.json`. Otherwise the result is the option loop. After a successful loop with `enable_sub_struct`, the image directory and `struct.json` follow the loop's effects, even under `no_assets`. `struct.json` is written only then. Under `no_assets`, nothing else is touched. |
| Audio.SampleFiles | src/extract/audio/card_sound_spell.py:64-67 | One path per decoded sample, in sample order: path `i` is `<dir>/<prefix>_<j>_<locale><i+1>.wav`. |
| Audio.AudioTarget | src/extract/audio/card_sound_spell.py:51-56 | Raises exactly when the base guid is missing from `base_assets_catalog` (with `KeyError` for that guid, even when it is overridden), or when the override rule raises: a non-`enus` locale whose catalog is missing, or an override record lacking `guid` or `bundle`. Otherwise it applies the same override rule as images. |
| Audio.SampleCount | src/extract/audio/card_sound_spell.py:59-61 | A sample count exists exactly when the bundle loads, the guid is in its container, the PPtr resolves and the samples decode, and it is then the decoded object's sample count. A load failure is raised as is. |
| Audio.LocaleFiles | src/extract/audio/card_sound_spell.py:51-74 | Succeeds exactly when the target resolves and decodes. The guid is the resolved guid and the files are the numbered sample paths. The effects are exactly the writes of those files, or none under `no_assets`. |
| Audio.BuildUnit | src/extract/audio/card_sound_spell.py:43-74 | A unit carries its entry's guid and weight, and `no_assets` suppresses every write. |
| Audio.BuildUnitLocales | src/extract/audio/card_sound_spell.py:50-74 | The locale loop succeeds exactly when every locale does. `locale_guid` and `locale_files` are then keyed by the requested locales in first-request order, each holding that locale's guid and files. |
| Audio.BuildUnitSucceeds | src/extract/audio/card_sound_spell.py:50-74 | The locale loop of one unit succeeds exactly when every requested locale resolves and decodes. |
| Audio.BuildUnitKeys | src/extract/audio/card_sound_spell.py:50-74 | The `locale_guid` and `locale_files` dicts of a built unit are keyed by the requested locales in first-request order. |
| Audio.BuildUnitEntries | src/extract/audio/card_sound_spell.py:50-74 | Each requested locale of a built unit holds that locale's own guid and its own file list. |
| Audio.BuildUnitsSpec | src/extract/audio/card_sound_spell.py:36-76 | The unit loop succeeds exactly when every unit before the first empty guid builds. It then returns `{}` exactly when an empty guid exists. Otherwise unit `k` is entry `k` built with the 1-based number `k+1`. |
| Audio.ExtractAsset | src/extract/audio/card_sound_spell.py:31-36 | The option directory is created first, unless `no_assets`, in which case nothing is created or written. The result is the unit loop's. |
| Audio.ExtractAssetUnits | src/extract/audio/card_sound_spell.py:36-76 | With every guid non-empty, a successful call gives one unit per entry, in order:<br>• each unit keeps its entry's guid and weight;<br>• it is keyed by exactly the requested locales;<br>• `enus` keeps the base guid;<br>• each locale lists one `<prefix>_<k+1>_<locale><i>.wav` per decoded sample. |
| Audio.EmptyGuidDiscardsUnits | src/extract/audio/card_sound_spell.py:39-41 | An empty guid anywhere makes a successful call return `{}`, discarding the units already built. |
| Audio.ReshapeSpecificSpec | src/extract/audio/card_sound_spell.py:95-99 | Specific entry `i` keeps its key, text and condition. It gets `sound_units` built under `<prefix>_specific_<i+1>`, and the loop succeeds exactly when every entry's extraction does. |
| Audio.Reshape | src/extract/audio/card_sound_spell.py:92-99 | Succeeds exactly when the `normal` part (if present) and every specific entry (if present) extract; a failing `normal` part raises its own exception. On success, `normal` and `specific` are present exactly as in the input record. `normal.sound_units` is built with prefix `<prefix>_normal`, and the specific entries are reshaped in order. |
| Audio.ExtractCardSoundSpell | src/extract/audio/card_sound_spell.py:84-100 | The base-bundle lookup is strict. `None` or an empty record gives `{}` with no effect, any other record is reshaped, and `no_assets` suppresses every effect. |
| Audio.NoAssetsSameRecord | src/extract/audio/card_sound_spell.py:33-34 | With `no_assets` the returned record, including every listed `.wav` path, is the same as without it, and nothing is created or written. |
| Audio.ReshapeIgnoresNoAssets | src/extract/audio/card_sound_spell.py:92-99 | The reshaped record, including every unit and path, does not depend on `no_assets`. |
| Audio.BuildUnitsIgnoresNoAssets | src/extract/audio/card_sound_spell.py:68-70 | The units built, including their paths, do not depend on `no_assets`. |
| Cli.ImageStep | src/cli.py:42-50 | An unknown image option raises `ArgumentTypeError` before reading the CardDef. A known one subscripts the CardDef and calls the image extractor with the card's id, that option's name and `get_guid` of its field. |
| Cli.AudioStep | src/cli.py:53-71 | An unknown audio option raises `ArgumentTypeError`. A known one calls the audio extractor with the card's id and the value of that option's field. |
| Cli.Issue | src/cli.py:41-71 | Options run in order until the first exception. Every call up to and including the first failing extractor is made. The run completes exactly when nothing raised, and otherwise it ends with the first exception. |
| Cli.ExtractCard | src/cli.py:27-71 | A card id missing from `cards_map` raises. A falsy root guid ends the card with no call and an unchanged cache, and only a falsy guid does. The base-bundle lookup is strict. The bundle handle is opened, and the cache keeps all old handles, before the CardDef is read and the options are dispatched. |
| Cli.ExtractCardIgnoresCache | src/cli.py:76-78 | What happens to a card does not depend on which bundles earlier cards opened. |
| Cli.CompletedPlan | src/cli.py:41-71 | A plan that runs to completion made exactly one call per option, all for its card: the image calls in order, then the audio calls, each for its option's field. Every option was known. |
| Cli.CompletedCard | src/cli.py:27-71 | A completed card had a truthy root guid. It requested only known options and made exactly one call per option, all for that card: the image calls in order, then the audio calls, each reading its option's field. |
| Cli.UnknownImageOptionRaises | src/cli.py:49-50 | An unknown image option raises `ArgumentTypeError` once the earlier options went through, even when the CardDef is `None`. |
| Cli.UnknownAudioOptionRaises | src/cli.py:70-71 | An unknown audio option raises `ArgumentTypeError` once the image options and earlier audio options went through. |
| Cli.ProcessCards | src/cli.py:74-80 | Every card id gets a report, in order, and each report is that card's own run: an exception in one card is contained and the rest still run. The handle cache stays valid and keeps every earlier handle. |

## Left out

- UnityPy itself is not modelled: `UnityPy.load`, `read_typetree`, `deref_parse_as_object`, `.samples` and `.image.save`. A bundle that loads is an `Env` value. Each object carries what its decoders produce (`Payload`), and a decoder that raises is `samples: None` or `imageDecodes: false`.
- `Path.resolve` is an uninterpreted canonicalisation (`World.canon`), because symbolic links and the working directory are outside the model.
- File-system effects are a log of `MakeDir`/`WriteFile`. A `mkdir` or `open` that itself raises is not modelled, and neither are the bytes written or the JSON text of `struct.json`. The `ensure_ascii` and `merged_struct` settings only affect that text.
- Logging and `parse_args`/argparse configuration are plumbing and are not modelled. `main`'s `logger.critical` becomes a `Raised` report.
- `utils.extract_image`, `utils.extract_audio` and `utils.extract_audio_list` are not part of this model. A card run records the call it makes to them, with the card id and the value passed, and whether that call raises is the parameter `fails`, a function of the call.
- `helpers.safe_get` and `helpers.get_guid` are not part of this model:
  - `safe_get` is taken to return `None` for any missing key or index. Optional fields and `Unity.Slot` play that role.
  - `helpers.get_guid` is taken to be `get_guid` of `cli.py`.
- The `cached_property` laziness of `env` and `path_id` is not modelled. They are recomputed on each use, which gives the same value because a bundle's contents depend only on its resolved path.
- Cli.ExtractCard: only the handle opened for the card's CardDef enters the modelled cache. The bundles that the extractors open through `CommonUnity3d` are read directly from the file system, because no result depends on handle identity.
- The re-run of `CommonUnity3d.__init__` on a cached instance is not modelled. It resets `_filename`, which only a log message reads.
- Weights are `real`. The integer `1` that `_sound_def` gives a single clip is `1.0`, because the JSON rendering of numbers is not modelled.
- CardDef field values are a string or a non-string value named by an opaque token (`Scalar`). `get_guid` only tells the two kinds apart, and the audio extractors receive the value itself, so what they do with an effect definition may depend on it through `fails`. The structure inside an effect definition is not modelled.
- The `GameStringValue` dict is a `map`, so its key order is not modelled. It copies an input table whose order is not otherwise observed.
- The aliasing of the module-level `empty_card_sound_spell` dict is a Python mutation detail and is not modelled. The model returns a fresh empty record each time.
- Audio.Reshape: the source leaves a `normal` part with an empty `sound_def` untouched. `CardSoundSpell` never produces one (Common.SpellOf), so the model always builds units for a present `normal`.
- Common.ClipsOf: every random clip with a truthy `m_Clip` is taken to carry `m_Weight`, so the `KeyError` a clip without it would raise is not modelled. `m_Weight` is a serialized field of the clip type, so `read_typetree` always produces it.
- Outcomes.Join: joining paths is plain concatenation with `/`, so pathlib's normalisation is not modelled. The output and input folders are taken to be given without a trailing `/` and not as `.`, and card ids, option names and bundle file names to be relative names. pathlib renders `./x` as `x` and lets an absolute part replace the base; the model does neither.
- Python exception classes are reduced to the `Failure` kinds that matter here, such as `KeyMissing` for a `KeyError`. Messages are not modelled.
- `src/typed_dicts/card_sound_spell.py`, `src/context.py` and `src/utils/__init__.py` hold declarations and re-exports only. They shaped the datatypes and have no behaviour of their own.
