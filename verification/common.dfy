/**
 * The graph walks of `CommonUnity3d`: the root CardDef, the four-hop SoundDef chain, and
 * the CardSoundSpell record built from them.
 */
module Common {
  import opened Wrappers
  import opened Outcomes
  import opened Text
  import opened Unity
  import opened BundleStore
  import opened Manifest

  /** One `{guid, weight}` alternative of a SoundDef. */
  datatype SoundDefEntry = SoundDefEntry(guid: Guid, weight: real)

  /** One surviving card-specific voice-over entry, before its audio is extracted. */
  datatype SpecificVo = SpecificVo(
    soundDef: seq<SoundDefEntry>,
    gameStringKey: Option<string>,
    gameStringValue: map<Locale, string>,
    condition: Condition)

  /** `CardSoundSpellReturnDict`: `normal` holds the normal sound-def entries. */
  datatype SoundSpell = SoundSpell(normal: Option<seq<SoundDefEntry>>, specific: Option<seq<SpecificVo>>)

  /*
   * CardDef
   */

  /**
   * `CardDef` on a loaded bundle: the container entry for `guid` is read, its component slot 1
   * names the CardDef object. A missing or zero slot id gives `None`; a missing container key,
   * an unreadable root or an id with no object raises.
   */
  function CardDefIn(env: Env, guid: Guid): (r: Result<Option<Tree>, Failure>)
    ensures guid !in env.container ==> r == Err(KeyMissing(guid))
    ensures r.Ok? ==> guid in env.container && Deref(env, env.container[guid]).Ok?
    ensures r.Ok? ==>
      var slot := Slot(Deref(env, env.container[guid]).value.tree.components, CardDefSlot);
      && (r.value.None? <==> !Present(slot))
      && (r.value.Some? ==> exists o :: o in env.objects && o.pathId == slot.value && o.tree == r.value.value)
    ensures r.Err? && guid in env.container && Deref(env, env.container[guid]).Ok? ==>
      var slot := Slot(Deref(env, env.container[guid]).value.tree.components, CardDefSlot);
      Present(slot) && forall o :: o in env.objects ==> o.pathId != slot.value
  {
    if guid !in env.container then Err(KeyMissing(guid))
    else
      var root :- Deref(env, env.container[guid]);
      var slot := Slot(root.tree.components, CardDefSlot);
      if !Present(slot) then Ok(None)
      else
        var idx := PathIdIndex(env.objects);
        if slot.value in idx then Ok(Some(idx[slot.value].tree)) else Err(PathIdMissing(slot.value))
  }

  /** `CommonUnity3d(folder, filename).CardDef(guid)`: loads the bundle, then walks as `CardDefIn`. */
  function CardDef(w: World, b: Bundle, guid: Guid): (r: Result<Option<Tree>, Failure>)
    ensures LoadEnv(w, b).Err? ==> r == Err(LoadEnv(w, b).error)
    ensures LoadEnv(w, b).Ok? ==> r == CardDefIn(LoadEnv(w, b).value, guid)
  {
    var env :- LoadEnv(w, b);
    CardDefIn(env, guid)
  }

  /*
   * The SoundDef chain
   */

  /**
   * AudioSource -> `m_GameObject` -> component slot 2 -> SoundDef object: `None` as soon as one
   * id is missing, zero, or names no object.
   */
  function SoundDefObject(env: Env, audioSource: Option<PathId>): (r: Option<UObject>)
    ensures r.Some? ==> r.value in env.objects
    ensures !Present(audioSource) ==> r == None
    ensures Hop(env, audioSource).None? ==> r == None
    ensures Hop(env, audioSource).Some? && Hop(env, Hop(env, audioSource).value.tree.gameObject).None? ==> r == None
    ensures r.Some? <==>
      && Hop(env, audioSource).Some?
      && Hop(env, Hop(env, audioSource).value.tree.gameObject).Some?
      && Hop(env, Slot(Hop(env, Hop(env, audioSource).value.tree.gameObject).value.tree.components, SoundDefSlot)).Some?
    ensures r.Some? ==>
      var slot := Slot(Hop(env, Hop(env, audioSource).value.tree.gameObject).value.tree.components, SoundDefSlot);
      Present(slot) && r.value.pathId == slot.value
  {
    match Hop(env, audioSource)
    case None => None
    case Some(source) =>
      match Hop(env, source.tree.gameObject)
      case None => None
      case Some(gameObject) => Hop(env, Slot(gameObject.tree.components, SoundDefSlot))
  }

  /** The entry one random clip contributes: its guid is the text after the clip's last `:`. */
  function ClipEntry(c: RandomClip): SoundDefEntry
    requires Truthy(c.clip)
  {
    SoundDefEntry(LastSegment(c.clip.value, ':'), c.weight)
  }

  /** How many random clips lack a truthy `m_Clip`. */
  function MissingClips(clips: seq<RandomClip>): nat
    decreases |clips|
  {
    if |clips| == 0 then 0 else (if Truthy(clips[0].clip) then 0 else 1) + MissingClips(clips[1..])
  }

  /**
   * The entries of `m_RandomClips`: one per clip whose `m_Clip` is truthy, in order, with that
   * clip's weight; the count falls short of the list by exactly the clips lacking `m_Clip`.
   */
  function ClipsOf(clips: seq<RandomClip>): (r: seq<SoundDefEntry>)
    ensures |r| + MissingClips(clips) == |clips|
    ensures forall e :: e in r ==> exists c :: c in clips && Truthy(c.clip) && e == ClipEntry(c)
    decreases |clips|
  {
    if |clips| == 0 then []
    else
      var rest := ClipsOf(clips[1..]);
      assert forall c :: c in clips[1..] ==> c in clips;
      (if Truthy(clips[0].clip) then [ClipEntry(clips[0])] else []) + rest
  }

  /** `ClipsOf` distributes over concatenation, so it keeps the relative order of the clips. */
  lemma {:induction false} ClipsOfConcat(a: seq<RandomClip>, b: seq<RandomClip>)
    ensures ClipsOf(a + b) == ClipsOf(a) + ClipsOf(b)
    decreases |a|
  {
    if |a| == 0 {
      assert a + b == b;
    } else {
      assert (a + b)[1..] == a[1..] + b;
      ClipsOfConcat(a[1..], b);
    }
  }

  /** A single clip contributes exactly its own entry, or nothing when `m_Clip` is missing. */
  lemma ClipsOfSingle(c: RandomClip)
    ensures ClipsOf([c]) == if Truthy(c.clip) then [ClipEntry(c)] else []
  {
    assert [c][1..] == [];
  }

  /**
   * The alternatives a SoundDef object lists: a truthy `m_AudioClip` gives one entry of
   * weight 1 and shadows `m_RandomClips`; otherwise the random clips; otherwise nothing.
   */
  function LeafEntries(t: Tree): (r: seq<SoundDefEntry>)
    ensures Truthy(t.audioClip) ==> |r| == 1 && r[0].weight == 1.0 && ':' !in r[0].guid
    ensures Truthy(t.audioClip) ==> r == [SoundDefEntry(LastSegment(t.audioClip.value, ':'), 1.0)]
    ensures !Truthy(t.audioClip) && t.randomClips.Some? ==> r == ClipsOf(t.randomClips.value)
    ensures !Truthy(t.audioClip) && t.randomClips.None? ==> r == []
  {
    LastSegmentIsSuffix(if t.audioClip.Some? then t.audioClip.value else "", ':');
    if Truthy(t.audioClip) then [SoundDefEntry(LastSegment(t.audioClip.value, ':'), 1.0)]
    else if t.randomClips.Some? && |t.randomClips.value| > 0 then ClipsOf(t.randomClips.value)
    else []
  }

  /** `_sound_def(path_id)`: the SoundDef alternatives reached from an AudioSource id, or none. */
  function SoundDef(env: Env, audioSource: Option<PathId>): (r: seq<SoundDefEntry>)
    ensures SoundDefObject(env, audioSource).None? ==> r == []
    ensures r != [] ==> SoundDefObject(env, audioSource).Some?
    ensures SoundDefObject(env, audioSource).Some? ==> r == LeafEntries(SoundDefObject(env, audioSource).value.tree)
  {
    match SoundDefObject(env, audioSource)
    case None => []
    case Some(sd) => LeafEntries(sd.tree)
  }

  /*
   * CardSoundSpell
   */

  /** The game strings of a voice-over key: the table's per-locale texts for the key, or none when the key is absent. */
  function GameStringValue(audio: map<string, map<Locale, string>>, key: Option<string>): map<Locale, string> {
    if key.Some? && key.value in audio then audio[key.value] else map[]
  }

  /** A voice-over entry survives when its AudioSource id is truthy and its SoundDef is non-empty. */
  predicate Kept(env: Env, data: VoData) {
    Present(data.audioSource) && SoundDef(env, data.audioSource) != []
  }

  function CountKept(env: Env, list: seq<VoData>): nat
    decreases |list|
  {
    if |list| == 0 then 0 else (if Kept(env, list[0]) then 1 else 0) + CountKept(env, list[1..])
  }

  /** The record one surviving entry contributes. */
  function VoRecord(env: Env, data: VoData, audio: map<string, map<Locale, string>>): SpecificVo {
    SpecificVo(SoundDef(env, data.audioSource), data.gameStringKey, GameStringValue(audio, data.gameStringKey), data.condition)
  }

  /**
   * The loop over `m_CardSpecificVoDataList`: entries whose AudioSource id is falsy or whose
   * SoundDef is empty are skipped; the rest keep their order. Looking up the game string of a
   * surviving entry raises when there is no gameplay-audio table.
   */
  function SpecificOf(env: Env, list: seq<VoData>, audio: Option<map<string, map<Locale, string>>>)
    : (r: Result<seq<SpecificVo>, Failure>)
    ensures audio.None? ==> (r.Err? <==> exists k :: 0 <= k < |list| && Kept(env, list[k]))
    ensures audio.Some? ==> r.Ok?
    ensures r.Ok? ==> |r.value| == CountKept(env, list)
    ensures r.Ok? ==> forall v :: v in r.value ==> v.soundDef != []
    ensures r.Ok? && audio.Some? ==> forall v :: v in r.value ==> v.gameStringValue == GameStringValue(audio.value, v.gameStringKey)
    decreases |list|
  {
    if |list| == 0 then Ok([])
    else
      assert forall k :: 0 < k < |list| ==> list[k] == list[1..][k - 1];
      if !Kept(env, list[0]) then SpecificOf(env, list[1..], audio)
      else if audio.None? then Err(AttributeMissing)
      else
        var rest := SpecificOf(env, list[1..], audio);
        Ok([VoRecord(env, list[0], audio.value)] + rest.value)
  }

  /** With a gameplay-audio table, `SpecificOf` distributes over concatenation: order is preserved. */
  lemma {:induction false} SpecificOfConcat(env: Env, a: seq<VoData>, b: seq<VoData>, audio: map<string, map<Locale, string>>)
    ensures SpecificOf(env, a + b, Some(audio)).value
      == SpecificOf(env, a, Some(audio)).value + SpecificOf(env, b, Some(audio)).value
    decreases |a|
  {
    if |a| == 0 {
      assert a + b == b;
    } else {
      assert (a + b)[1..] == a[1..] + b;
      assert (a + b)[0] == a[0];
      SpecificOfConcat(env, a[1..], b, audio);
    }
  }

  /** One entry contributes its record exactly when it survives. */
  lemma SpecificOfSingle(env: Env, data: VoData, audio: map<string, map<Locale, string>>)
    ensures SpecificOf(env, [data], Some(audio)) == Ok(if Kept(env, data) then [VoRecord(env, data, audio)] else [])
  {
    var list := [data];
    assert list[1..] == [];
    assert list[0] == data;
    assert SpecificOf(env, list[1..], Some(audio)) == Ok([]);
    if Kept(env, data) {
      var v := VoRecord(env, data, audio);
      assert [v] + [] == [v];
      assert SpecificOf(env, list, Some(audio)) == Ok([v] + []);
    }
  }

  /**
   * The record built from a CardSoundSpell object that has `m_CardSoundData`: `normal` is
   * present exactly when its SoundDef is non-empty, `specific` exactly when some voice-over
   * entry survives, and then it lists the survivors in order.
   */
  function SpellOf(env: Env, t: Tree, audio: Option<map<string, map<Locale, string>>>): (r: Result<SoundSpell, Failure>)
    requires t.cardSoundData.Some?
    ensures r.Ok? ==>
      var normal := SoundDef(env, t.cardSoundData.value.audioSource);
      && (r.value.normal.Some? <==> normal != [])
      && (r.value.normal.Some? ==> r.value.normal.value == normal)
      && (r.value.specific.Some? <==> t.specificVo.Some? && CountKept(env, t.specificVo.value) > 0)
      && (r.value.specific.Some? ==> SpecificOf(env, t.specificVo.value, audio) == Ok(r.value.specific.value))
    ensures r.Err? <==> t.specificVo.Some? && audio.None? && CountKept(env, t.specificVo.value) > 0
  {
    var normal := SoundDef(env, t.cardSoundData.value.audioSource);
    var normalPart := if normal != [] then Some(normal) else None;
    if t.specificVo.None? then Ok(SoundSpell(normalPart, None))
    else
      CountKeptZero(env, t.specificVo.value);
      var specific :- SpecificOf(env, t.specificVo.value, audio);
      assert |specific| == CountKept(env, t.specificVo.value);
      Ok(SoundSpell(normalPart, if specific != [] then Some(specific) else None))
  }

  /**
   * `CardSoundSpell` on a loaded bundle, after the falsy-guid test: `None` when the guid has no
   * container entry or a zero one, when slot 1 is empty, or when the record lacks
   * `m_CardSoundData`; otherwise the record `SpellOf` builds.
   */
  function CardSoundSpellIn(env: Env, guid: Guid, audio: Option<map<string, map<Locale, string>>>)
    : (r: Result<Option<SoundSpell>, Failure>)
    ensures guid !in env.container || env.container[guid] == 0 ==> r == Ok(None)
    ensures guid in env.container && env.container[guid] != 0 && CardDefIn(env, guid).Err? ==> r == Err(CardDefIn(env, guid).error)
    ensures guid in env.container && env.container[guid] != 0 && CardDefIn(env, guid) == Ok(None) ==> r == Ok(None)
    ensures guid in env.container && env.container[guid] != 0 && CardDefIn(env, guid).Ok? && CardDefIn(env, guid).value.Some?
      ==> var t := CardDefIn(env, guid).value.value;
        && (t.cardSoundData.None? ==> r == Ok(None))
        && (t.cardSoundData.Some? && SpellOf(env, t, audio).Ok? ==> r == Ok(Some(SpellOf(env, t, audio).value)))
        && (t.cardSoundData.Some? && SpellOf(env, t, audio).Err? ==> r.Err?)
  {
    if guid !in env.container || env.container[guid] == 0 then Ok(None)
    else
      var root :- CardDefIn(env, guid);
      if root.None? || root.value.cardSoundData.None? then Ok(None)
      else
        var spell :- SpellOf(env, root.value, audio);
        Ok(Some(spell))
  }

  /** No entry survives exactly when the survivor count is zero. */
  lemma {:induction false} CountKeptZero(env: Env, list: seq<VoData>)
    ensures CountKept(env, list) == 0 <==> forall k :: 0 <= k < |list| ==> !Kept(env, list[k])
    decreases |list|
  {
    if |list| > 0 {
      CountKeptZero(env, list[1..]);
      assert forall k :: 0 < k < |list| ==> list[k] == list[1..][k - 1];
    }
  }

  /**
   * `CommonUnity3d(folder, filename).CardSoundSpell(guid, gameplay_audio)`: a falsy guid gives
   * `None` without touching the bundle; otherwise the bundle is loaded and walked.
   */
  function CardSoundSpell(w: World, b: Bundle, guid: Guid, audio: Option<map<string, map<Locale, string>>>)
    : (r: Result<Option<SoundSpell>, Failure>)
    ensures guid == "" ==> r == Ok(None)
    ensures guid != "" && LoadEnv(w, b).Err? ==> r.Err?
    ensures guid != "" && LoadEnv(w, b).Ok? ==> r == CardSoundSpellIn(LoadEnv(w, b).value, guid, audio)
  {
    if guid == "" then Ok(None)
    else
      var env :- LoadEnv(w, b);
      CardSoundSpellIn(env, guid, audio)
  }
}
