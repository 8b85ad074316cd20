/**
 * Card dispatch (`cli.py`): resolving a card id to its CardDef, mapping each requested image and
 * audio option to the CardDef field it reads, and containing each card's failure in `main`.
 *
 * The extractors `extract_image`, `extract_audio` and `extract_audio_list` that the dispatch
 * calls are not part of this model: a card run records the calls it makes, and whether a call
 * raises is a parameter `fails`.
 */
module Cli {
  import opened Wrappers
  import opened Outcomes
  import opened Unity
  import opened BundleStore
  import opened Manifest
  import opened Common
  import opened Guids
  import opened Options

  /**
   * One call to an extractor, with the arguments the dispatch passes: the card id of the
   * per-card context, and the guid or field value it reads.
   */
  datatype Call =
    | ImageCall(cardId: string, name: string, guid: Option<Guid>)
    | AudioCall(cardId: string, option: string, target: AudioTarget, value: Scalar)

  /** How one card ends: no CardDef guid, every option dispatched, or an exception. */
  datatype CardOutcome = NoCardDef | Completed | Raised(failure: Failure)

  /** The extractor calls made for one card, in order, and how the card ended. */
  datatype CardRun = CardRun(calls: seq<Call>, outcome: CardOutcome)

  /** The parts of `HearthstoneExtractContext` the dispatch reads. */
  datatype CliContext = CliContext(
    world: World,
    input: Path,
    manifest: AssetManifest,
    imageOptions: seq<string>,
    audioOptions: seq<string>)

  /** `card_def[field]`: subscripting a `None` card definition raises, and so does a missing key. */
  function FieldOf(cardDef: Option<Tree>, field: string): (r: Result<Scalar, Failure>)
    ensures cardDef.None? ==> r == Err(NotSubscriptable)
    ensures cardDef.Some? ==> (r.Ok? <==> field in cardDef.value.cardFields)
    ensures r.Ok? ==> cardDef.Some? && r.value == cardDef.value.cardFields[field]
    ensures r.Err? && cardDef.Some? ==> r.error == KeyMissing(field)
  {
    match cardDef
    case None => Err(NotSubscriptable)
    case Some(t) => if field in t.cardFields then Ok(t.cardFields[field]) else Err(KeyMissing(field))
  }

  /** One case of the image `match`: the call to make, or the exception raised before making it. */
  function ImageStep(cardId: string, cardDef: Option<Tree>, option: string): (r: Result<Call, Failure>)
    ensures option !in ImageOptions ==> r == Err(UnknownImageOption(option))
    ensures option in ImageOptions ==> r.Ok? == FieldOf(cardDef, ImageField(option).value).Ok?
    ensures r.Ok? ==> r.value == ImageCall(cardId, option, GetGuid(FieldOf(cardDef, ImageField(option).value).value))
  {
    match ImageField(option)
    case None => Err(UnknownImageOption(option))
    case Some(field) =>
      var v :- FieldOf(cardDef, field);
      Ok(ImageCall(cardId, option, GetGuid(v)))
  }

  /** One case of the audio `match`. */
  function AudioStep(cardId: string, cardDef: Option<Tree>, option: string): (r: Result<Call, Failure>)
    ensures option !in AudioOptions ==> r == Err(UnknownAudioOption(option))
    ensures option in AudioOptions ==> r.Ok? == FieldOf(cardDef, AudioField(option).value.field).Ok?
    ensures r.Ok? ==> r.value == AudioCall(cardId, option, AudioField(option).value, FieldOf(cardDef, AudioField(option).value.field).value)
  {
    match AudioField(option)
    case None => Err(UnknownAudioOption(option))
    case Some(target) =>
      var v :- FieldOf(cardDef, target.field);
      Ok(AudioCall(cardId, option, target, v))
  }

  /** The steps of `extract_card` after the CardDef is read: every image option, then every audio option. */
  function Plan(cardId: string, cardDef: Option<Tree>, imageOptions: seq<string>, audioOptions: seq<string>)
    : (steps: seq<Result<Call, Failure>>)
    ensures |steps| == |imageOptions| + |audioOptions|
    ensures forall i :: 0 <= i < |imageOptions| ==> steps[i] == ImageStep(cardId, cardDef, imageOptions[i])
    ensures forall i :: 0 <= i < |audioOptions| ==> steps[|imageOptions| + i] == AudioStep(cardId, cardDef, audioOptions[i])
  {
    seq(|imageOptions|, i requires 0 <= i < |imageOptions| => ImageStep(cardId, cardDef, imageOptions[i]))
      + seq(|audioOptions|, i requires 0 <= i < |audioOptions| => AudioStep(cardId, cardDef, audioOptions[i]))
  }

  /** Position of the first step that raises, either itself or in the extractor it calls; `|steps|` if none does. */
  function FirstStop(steps: seq<Result<Call, Failure>>, fails: Call -> bool): (k: nat)
    ensures k <= |steps|
    ensures forall i :: 0 <= i < k ==> steps[i].Ok? && !fails(steps[i].value)
    ensures k < |steps| ==> steps[k].Err? || fails(steps[k].value)
    decreases |steps|
  {
    if |steps| == 0 then 0
    else if steps[0].Err? || fails(steps[0].value) then 0
    else 1 + FirstStop(steps[1..], fails)
  }

  /**
   * Performing the steps in order until one raises: every call up to and including the first
   * failing extractor is made, and the run ends with the first exception, or completes.
   */
  function Issue(steps: seq<Result<Call, Failure>>, fails: Call -> bool): (r: CardRun)
    ensures var k := FirstStop(steps, fails);
      && (r.outcome == Completed <==> k == |steps|)
      && (k < |steps| ==> r.outcome == Raised(if steps[k].Err? then steps[k].error else CollaboratorFailed))
      && |r.calls| == (if k < |steps| && steps[k].Ok? then k + 1 else k)
    ensures forall i :: 0 <= i < |r.calls| ==> steps[i] == Ok(r.calls[i])
    decreases |steps|
  {
    if |steps| == 0 then CardRun([], Completed)
    else
      match steps[0]
      case Err(f) => CardRun([], Raised(f))
      case Ok(c) =>
        if fails(c) then CardRun([c], Raised(CollaboratorFailed))
        else
          var rest := Issue(steps[1..], fails);
          CardRun([c] + rest.calls, rest.outcome)
  }

  /**
   * `extract_card(context, card_id)`, with the handle cache it leaves behind. A card id missing
   * from `cards_map` raises; a falsy root guid ends the card without a call; the base bundle lookup
   * is strict; the bundle handle is opened before its CardDef is read.
   */
  function ExtractCard(store: Cache, ctx: CliContext, cardId: string, fails: Call -> bool): (r: (Cache, CardRun))
    requires Valid(store)
    ensures Valid(r.0)
    ensures cardId !in ctx.manifest.cardsMap ==> r == (store, CardRun([], Raised(KeyMissing(cardId))))
    ensures cardId in ctx.manifest.cardsMap && !Truthy(ctx.manifest.cardsMap[cardId]) ==> r == (store, CardRun([], NoCardDef))
    ensures r.1.outcome == NoCardDef ==> cardId in ctx.manifest.cardsMap && !Truthy(ctx.manifest.cardsMap[cardId])
    ensures cardId in ctx.manifest.cardsMap && Truthy(ctx.manifest.cardsMap[cardId]) ==>
      var guid := ctx.manifest.cardsMap[cardId].value;
      && (guid !in ctx.manifest.baseCatalog ==> r == (store, CardRun([], Raised(KeyMissing(guid)))))
      && (guid in ctx.manifest.baseCatalog ==>
            var b := Bundle(ctx.input, ctx.manifest.baseCatalog[guid]);
            && r.0 == Open(store, ctx.world, b).0
            && var cd := CardDef(ctx.world, b, guid);
            && (cd.Err? ==> r.1 == CardRun([], Raised(cd.error)))
            && (cd.Ok? ==> r.1 == Issue(Plan(cardId, cd.value, ctx.imageOptions, ctx.audioOptions), fails)))
    ensures store.handles.Keys <= r.0.handles.Keys
    ensures forall p :: p in store.handles ==> r.0.handles[p] == store.handles[p]
  {
    if cardId !in ctx.manifest.cardsMap then (store, CardRun([], Raised(KeyMissing(cardId))))
    else if !Truthy(ctx.manifest.cardsMap[cardId]) then (store, CardRun([], NoCardDef))
    else
      var guid := ctx.manifest.cardsMap[cardId].value;
      if guid !in ctx.manifest.baseCatalog then (store, CardRun([], Raised(KeyMissing(guid))))
      else
        var b := Bundle(ctx.input, ctx.manifest.baseCatalog[guid]);
        var (store', _) := Open(store, ctx.world, b);
        match CardDef(ctx.world, b, guid)
        case Err(f) => (store', CardRun([], Raised(f)))
        case Ok(cd) => (store', Issue(Plan(cardId, cd, ctx.imageOptions, ctx.audioOptions), fails))
  }

  /** What happens to a card does not depend on which bundles earlier cards opened. */
  lemma ExtractCardIgnoresCache(s1: Cache, s2: Cache, ctx: CliContext, cardId: string, fails: Call -> bool)
    requires Valid(s1) && Valid(s2)
    ensures ExtractCard(s1, ctx, cardId, fails).1 == ExtractCard(s2, ctx, cardId, fails).1
  {
  }

  /**
   * A plan that runs to completion made exactly one call per option, for this card: the image
   * calls in request order, then the audio calls, each for the field its option names, and every
   * option was known.
   */
  lemma {:induction false} CompletedPlan(cardId: string, cardDef: Option<Tree>, imageOptions: seq<string>, audioOptions: seq<string>, fails: Call -> bool)
    requires Issue(Plan(cardId, cardDef, imageOptions, audioOptions), fails).outcome == Completed
    ensures var calls := Issue(Plan(cardId, cardDef, imageOptions, audioOptions), fails).calls;
      && |calls| == |imageOptions| + |audioOptions|
      && (forall i :: 0 <= i < |calls| ==> calls[i].cardId == cardId)
      && (forall i :: 0 <= i < |imageOptions| ==>
            && imageOptions[i] in ImageOptions
            && calls[i].ImageCall? && calls[i].name == imageOptions[i])
      && (forall i :: 0 <= i < |audioOptions| ==>
            && audioOptions[i] in AudioOptions
            && calls[|imageOptions| + i].AudioCall?
            && calls[|imageOptions| + i].target == AudioField(audioOptions[i]).value)
  {
    var steps := Plan(cardId, cardDef, imageOptions, audioOptions);
    var run := Issue(steps, fails);
    assert FirstStop(steps, fails) == |steps|;
    forall i | 0 <= i < |imageOptions|
      ensures imageOptions[i] in ImageOptions
    {
      assert steps[i].Ok?;
    }
    forall i | 0 <= i < |audioOptions|
      ensures audioOptions[i] in AudioOptions
    {
      assert steps[|imageOptions| + i].Ok?;
    }
  }

  /**
   * A card that completes had a readable CardDef, requested only known options whose fields all
   * exist, and made exactly one call per option, all for this card: the image calls in request
   * order, then the audio calls, each for the field its option names.
   */
  lemma CompletedCard(store: Cache, ctx: CliContext, cardId: string, fails: Call -> bool)
    requires Valid(store)
    requires ExtractCard(store, ctx, cardId, fails).1.outcome == Completed
    ensures cardId in ctx.manifest.cardsMap && Truthy(ctx.manifest.cardsMap[cardId])
    ensures var calls := ExtractCard(store, ctx, cardId, fails).1.calls;
      && |calls| == |ctx.imageOptions| + |ctx.audioOptions|
      && (forall i :: 0 <= i < |calls| ==> calls[i].cardId == cardId)
      && (forall i :: 0 <= i < |ctx.imageOptions| ==>
            && ctx.imageOptions[i] in ImageOptions
            && calls[i].ImageCall? && calls[i].name == ctx.imageOptions[i])
      && (forall i :: 0 <= i < |ctx.audioOptions| ==>
            && ctx.audioOptions[i] in AudioOptions
            && calls[|ctx.imageOptions| + i].AudioCall?
            && calls[|ctx.imageOptions| + i].target == AudioField(ctx.audioOptions[i]).value)
  {
    var run := ExtractCard(store, ctx, cardId, fails).1;
    assert cardId in ctx.manifest.cardsMap;
    assert Truthy(ctx.manifest.cardsMap[cardId]);
    var guid := ctx.manifest.cardsMap[cardId].value;
    assert guid in ctx.manifest.baseCatalog;
    var b := Bundle(ctx.input, ctx.manifest.baseCatalog[guid]);
    assert CardDef(ctx.world, b, guid).Ok?;
    var cd := CardDef(ctx.world, b, guid).value;
    ExtractCardRunsPlan(store, ctx, cardId, fails, cd);
    assert run == Issue(Plan(cardId, cd, ctx.imageOptions, ctx.audioOptions), fails);
    CompletedPlan(cardId, cd, ctx.imageOptions, ctx.audioOptions, fails);
  }

  /** When every step before position `k` goes through and step `k` itself raises, the run ends with that exception. */
  lemma IssueRaisesAt(steps: seq<Result<Call, Failure>>, fails: Call -> bool, k: nat)
    requires k < |steps| && steps[k].Err?
    requires forall i :: 0 <= i < k ==> steps[i].Ok? && !fails(steps[i].value)
    ensures Issue(steps, fails).outcome == Raised(steps[k].error)
  {
    assert FirstStop(steps, fails) == k;
  }

  /** Once the CardDef is read, a card runs the plan of its options. */
  lemma ExtractCardRunsPlan(store: Cache, ctx: CliContext, cardId: string, fails: Call -> bool, cardDef: Option<Tree>)
    requires Valid(store)
    requires cardId in ctx.manifest.cardsMap && Truthy(ctx.manifest.cardsMap[cardId])
    requires ctx.manifest.cardsMap[cardId].value in ctx.manifest.baseCatalog
    requires var guid := ctx.manifest.cardsMap[cardId].value;
      CardDef(ctx.world, Bundle(ctx.input, ctx.manifest.baseCatalog[guid]), guid) == Ok(cardDef)
    ensures ExtractCard(store, ctx, cardId, fails).1 == Issue(Plan(cardId, cardDef, ctx.imageOptions, ctx.audioOptions), fails)
  {
  }

  /**
   * An unknown image option raises `ArgumentTypeError` once every option before it has been
   * dispatched without an exception, even when the CardDef is `None`.
   */
  lemma UnknownImageOptionRaises(store: Cache, ctx: CliContext, cardId: string, fails: Call -> bool, cardDef: Option<Tree>, k: nat)
    requires Valid(store)
    requires cardId in ctx.manifest.cardsMap && Truthy(ctx.manifest.cardsMap[cardId])
    requires ctx.manifest.cardsMap[cardId].value in ctx.manifest.baseCatalog
    requires var guid := ctx.manifest.cardsMap[cardId].value;
      CardDef(ctx.world, Bundle(ctx.input, ctx.manifest.baseCatalog[guid]), guid) == Ok(cardDef)
    requires k < |ctx.imageOptions| && ctx.imageOptions[k] !in ImageOptions
    requires forall i :: 0 <= i < k ==> ImageStep(cardId, cardDef, ctx.imageOptions[i]).Ok? && !fails(ImageStep(cardId, cardDef, ctx.imageOptions[i]).value)
    ensures ExtractCard(store, ctx, cardId, fails).1.outcome == Raised(UnknownImageOption(ctx.imageOptions[k]))
  {
    var steps := Plan(cardId, cardDef, ctx.imageOptions, ctx.audioOptions);
    ExtractCardRunsPlan(store, ctx, cardId, fails, cardDef);
    IssueRaisesAt(steps, fails, k);
  }

  /** The audio counterpart: an unknown audio option raises once the image options and earlier audio options went through. */
  lemma UnknownAudioOptionRaises(store: Cache, ctx: CliContext, cardId: string, fails: Call -> bool, cardDef: Option<Tree>, k: nat)
    requires Valid(store)
    requires cardId in ctx.manifest.cardsMap && Truthy(ctx.manifest.cardsMap[cardId])
    requires ctx.manifest.cardsMap[cardId].value in ctx.manifest.baseCatalog
    requires var guid := ctx.manifest.cardsMap[cardId].value;
      CardDef(ctx.world, Bundle(ctx.input, ctx.manifest.baseCatalog[guid]), guid) == Ok(cardDef)
    requires forall i :: 0 <= i < |ctx.imageOptions| ==>
      ImageStep(cardId, cardDef, ctx.imageOptions[i]).Ok? && !fails(ImageStep(cardId, cardDef, ctx.imageOptions[i]).value)
    requires k < |ctx.audioOptions| && ctx.audioOptions[k] !in AudioOptions
    requires forall i :: 0 <= i < k ==> AudioStep(cardId, cardDef, ctx.audioOptions[i]).Ok? && !fails(AudioStep(cardId, cardDef, ctx.audioOptions[i]).value)
    ensures ExtractCard(store, ctx, cardId, fails).1.outcome == Raised(UnknownAudioOption(ctx.audioOptions[k]))
  {
    var n := |ctx.imageOptions|;
    var steps := Plan(cardId, cardDef, ctx.imageOptions, ctx.audioOptions);
    ExtractCardRunsPlan(store, ctx, cardId, fails, cardDef);
    forall i | 0 <= i < n + k
      ensures steps[i].Ok? && !fails(steps[i].value)
    {
      if i >= n {
        assert steps[n + (i - n)] == AudioStep(cardId, cardDef, ctx.audioOptions[i - n]);
      }
    }
    IssueRaisesAt(steps, fails, n + k);
  }

  /**
   * `main`: every card id in order, each in its own `try`, so an exception in one card is
   * contained and the remaining cards still run; the handle cache persists across cards.
   */
  method ProcessCards(store: Cache, ctx: CliContext, cardIds: seq<string>, fails: Call -> bool)
    returns (reports: seq<CardRun>, store': Cache)
    requires Valid(store)
    ensures |reports| == |cardIds|
    ensures forall i :: 0 <= i < |cardIds| ==> reports[i] == ExtractCard(store, ctx, cardIds[i], fails).1
    ensures Valid(store')
    ensures store.handles.Keys <= store'.handles.Keys
    ensures forall p :: p in store.handles ==> store'.handles[p] == store.handles[p]
  {
    reports := [];
    store' := store;
    var i := 0;
    while i < |cardIds|
      invariant 0 <= i <= |cardIds|
      invariant Valid(store')
      invariant |reports| == i
      invariant forall k :: 0 <= k < i ==> reports[k] == ExtractCard(store, ctx, cardIds[k], fails).1
      invariant store.handles.Keys <= store'.handles.Keys
      invariant forall p :: p in store.handles ==> store'.handles[p] == store.handles[p]
    {
      var (next, run) := ExtractCard(store', ctx, cardIds[i], fails);
      ExtractCardIgnoresCache(store', store, ctx, cardIds[i], fails);
      reports := reports + [run];
      store' := next;
      i := i + 1;
    }
  }
}
