/**
 * The decoded Unity objects, reduced to the fields the extractor reads, and the per-bundle
 * path-id index (`CommonUnity3d.path_id`).
 */
module Unity {
  import opened Wrappers
  import opened Outcomes

  /** A path identifier: the integer naming an object inside one bundle; `0` means "no object". */
  type PathId = int

  /** A catalog identifier: the string naming an asset across the whole asset set. */
  type Guid = string

  /**
   * A typetree field value: a string, or any other value (a dict, a list, a number, `None`)
   * named by an opaque token, equal tokens standing for equal values. `get_guid` only tells the
   * two kinds apart; the audio extractors receive the value itself.
   */
  datatype Scalar = Str(s: string) | NonStr(token: int)

  /** One element of a SoundDef's `m_RandomClips`: `m_Clip` (may be missing) and `m_Weight`. */
  datatype RandomClip = RandomClip(clip: Option<string>, weight: real)

  /** `m_CardSoundData`, reduced to `m_AudioSource.m_PathID`. */
  datatype CardSoundData = CardSoundData(audioSource: Option<PathId>)

  /** The trigger condition of a card-specific voice-over entry, each field as read by `.get`. */
  datatype Condition = Condition(
    cardId: Option<string>,
    requireTag: Option<int>,
    sideToSearch: Option<int>,
    tagValue: Option<int>,
    zonesToSearch: Option<seq<int>>)

  /** One element of `m_CardSpecificVoDataList`. */
  datatype VoData = VoData(audioSource: Option<PathId>, gameStringKey: Option<string>, condition: Condition)

  /**
   * The result of `read_typetree()` for any object the extractor visits. A field that the
   * object's class does not have is `None`; `components` holds, per `m_Component` slot,
   * that slot's `component.m_PathID`, and `cardFields` the CardDef fields read by name.
   */
  datatype Tree = Tree(
    components: seq<Option<PathId>>,
    gameObject: Option<PathId>,
    audioClip: Option<string>,
    randomClips: Option<seq<RandomClip>>,
    cardSoundData: Option<CardSoundData>,
    specificVo: Option<seq<VoData>>,
    cardFields: map<string, Scalar>)

  /**
   * What the opaque media decoders make of an object: whether `deref_parse_as_object().image`
   * decodes and saves, and how many samples `.samples` yields (`None` when decoding raises).
   */
  datatype Payload = Payload(imageDecodes: bool, samples: Option<nat>)

  datatype UObject = UObject(pathId: PathId, tree: Tree, payload: Payload)

  /** A loaded bundle: its objects in file order, and its container from catalog id to path id. */
  datatype Env = Env(objects: seq<UObject>, container: map<Guid, PathId>)

  /** The component slot of a root GameObject that carries the CardDef / CardSoundSpell. */
  const CardDefSlot: nat := 1

  /** The component slot of an audio GameObject that carries the SoundDef. */
  const SoundDefSlot: nat := 2

  /** A path id that is neither missing nor zero, i.e. truthy. */
  predicate Present(p: Option<PathId>) {
    p.Some? && p.value != 0
  }

  /** The path id held by component slot `i` of an object: `None` past the last slot or when the slot has none. */
  function Slot(components: seq<Option<PathId>>, i: nat): Option<PathId> {
    if i < |components| then components[i] else None
  }

  /** No later object shares the path id of `objects[i]`. */
  ghost predicate LastWithId(objects: seq<UObject>, i: int)
    requires 0 <= i < |objects|
  {
    forall j :: i < j < |objects| ==> objects[j].pathId != objects[i].pathId
  }

  /**
   * The `path_id` index, built by one pass over the objects in file order: the domain is exactly
   * the path ids that occur, every id maps to an object carrying it, and a repeated id keeps its
   * last object.
   */
  function PathIdIndex(objects: seq<UObject>): (idx: map<PathId, UObject>)
    ensures forall o :: o in objects ==> o.pathId in idx
    ensures forall p :: p in idx ==> idx[p] in objects && idx[p].pathId == p
    ensures forall i :: 0 <= i < |objects| && LastWithId(objects, i) ==> idx[objects[i].pathId] == objects[i]
    decreases |objects|
  {
    if |objects| == 0 then map[]
    else
      var prev := PathIdIndex(objects[..|objects| - 1]);
      IndexSnoc(objects, prev);
      prev[objects[|objects| - 1].pathId := objects[|objects| - 1]]
  }

  /** The recursive step of `PathIdIndex`: adding the last object keeps all three properties. */
  lemma IndexSnoc(objects: seq<UObject>, prev: map<PathId, UObject>)
    requires |objects| > 0
    requires var init := objects[..|objects| - 1];
      && (forall o :: o in init ==> o.pathId in prev)
      && (forall p :: p in prev ==> prev[p] in init && prev[p].pathId == p)
      && (forall i :: 0 <= i < |init| && LastWithId(init, i) ==> prev[init[i].pathId] == init[i])
    ensures var last := objects[|objects| - 1];
      var idx := prev[last.pathId := last];
      && (forall o :: o in objects ==> o.pathId in idx)
      && (forall p :: p in idx ==> idx[p] in objects && idx[p].pathId == p)
      && (forall i :: 0 <= i < |objects| && LastWithId(objects, i) ==> idx[objects[i].pathId] == objects[i])
  {
    var init := objects[..|objects| - 1];
    var last := objects[|objects| - 1];
    var idx := prev[last.pathId := last];
    assert objects == init + [last];
    forall o | o in objects
      ensures o.pathId in idx
    {
      if o != last {
        assert o in init;
      }
    }
    forall p | p in idx
      ensures idx[p] in objects && idx[p].pathId == p
    {
      if p != last.pathId {
        assert prev[p] in init;
      }
    }
    forall i | 0 <= i < |objects| && LastWithId(objects, i)
      ensures idx[objects[i].pathId] == objects[i]
    {
      if i < |init| {
        assert objects[|objects| - 1].pathId != objects[i].pathId;
        assert init[i] == objects[i];
        assert LastWithId(init, i);
      }
    }
  }

  /**
   * Reading the object a container PPtr names. An empty PPtr (path id 0) raises even when some
   * object carries id 0, and so does an id with no object.
   */
  function Deref(env: Env, pid: PathId): (r: Result<UObject, Failure>)
    ensures pid == 0 ==> r == Err(DanglingRef(0))
    ensures r.Ok? <==> pid != 0 && exists o :: o in env.objects && o.pathId == pid
    ensures r.Ok? ==> r.value in env.objects && r.value.pathId == pid
  {
    var idx := PathIdIndex(env.objects);
    if pid != 0 && pid in idx then Ok(idx[pid]) else Err(DanglingRef(pid))
  }

  /** Following a path id read from a typetree, after a truthiness test: `None` for a falsy or unknown id. */
  function Hop(env: Env, p: Option<PathId>): (r: Option<UObject>)
    ensures r.Some? <==> Present(p) && exists o :: o in env.objects && o.pathId == p.value
    ensures r.Some? ==> r.value in env.objects && r.value.pathId == p.value
  {
    var idx := PathIdIndex(env.objects);
    if Present(p) && p.value in idx then Some(idx[p.value]) else None
  }
}
