/** `get_guid` and the option-to-CardDef-field tables of the extractor. */
module Guids {
  import opened Wrappers
  import opened Text
  import opened Unity

  /**
   * `get_guid(source)`: for a string with at least one `:`, the segment between the first
   * and the second `:` (not the whole rest); `None` for a non-string or a string without `:`.
   */
  function GetGuid(source: Scalar): (r: Option<Guid>)
    ensures source.NonStr? ==> r == None
    ensures source.Str? ==> (r.Some? <==> ':' in source.s)
    ensures r.Some? ==> ':' !in r.value
  {
    match source
    case NonStr(_) => None
    case Str(s) =>
      var parts := Split(s, ':');
      if |parts| > 1 then Some(parts[1]) else None
  }

  /** Any guid placed after a colon-free prefix and ending at the next `:` (or the end) is what `GetGuid` returns. */
  lemma GetGuidOfComposite(prefix: string, guid: string, rest: string)
    requires ':' !in prefix && ':' !in guid
    requires rest == "" || rest[0] == ':'
    ensures GetGuid(Str(prefix + ":" + guid + rest)) == Some(guid)
  {
    var s := prefix + ":" + guid + rest;
    if rest == "" {
      assert s == JoinWith([prefix, guid], ':');
      SplitJoin([prefix, guid], ':');
    } else {
      var tail := rest[1..];
      var parts := [prefix, guid] + Split(tail, ':');
      assert parts[2..] == Split(tail, ':');
      assert parts[1..][1..] == parts[2..];
      assert JoinWith(parts[1..], ':') == guid + [':'] + tail;
      assert rest == [':'] + tail;
      assert s == JoinWith(parts, ':');
      SplitJoin(parts, ':');
    }
  }

  /**
   * Conversely, a found guid is exactly the text between the first colon and the next colon or
   * the end of the string: `s` splits as `prefix + ":" + guid + rest`.
   */
  lemma GetGuidIsSecondSegment(s: string) returns (prefix: string, rest: string)
    requires GetGuid(Str(s)).Some?
    ensures ':' !in prefix
    ensures rest == "" || rest[0] == ':'
    ensures s == prefix + ":" + GetGuid(Str(s)).value + rest
  {
    var parts := Split(s, ':');
    JoinWithHead(parts, ':');
    prefix, rest := parts[0], JoinTail(parts, ':');
    assert ":" == [':'];
  }
}

/** The option names accepted by the image and audio extractors, and the CardDef field each one reads. */
module Options {
  import opened Wrappers

  /** The accepted image options. */
  const ImageOptions: set<string> := {"normal", "signature"}

  /** The accepted audio options. */
  const AudioOptions: set<string> :=
    {"additional-play", "attack", "death", "lifetime", "trigger", "sub-option", "reset-game", "sub-spell"}

  /** The CardDef field an image option reads; `None` for an unknown option. */
  function ImageField(option: string): (r: Option<string>)
    ensures r.Some? <==> option in ImageOptions
    ensures option == "normal" ==> r == Some("m_PortraitTexturePath")
    ensures option == "signature" ==> r == Some("m_SignaturePortraitTexturePath")
  {
    match option
    case "normal" => Some("m_PortraitTexturePath")
    case "signature" => Some("m_SignaturePortraitTexturePath")
    case _ => None
  }

  /** The CardDef field an audio option reads, and whether it holds a list of effect definitions. */
  datatype AudioTarget = AudioTarget(field: string, isList: bool)

  /** The audio option table; `None` for an unknown option. */
  function AudioField(option: string): (r: Option<AudioTarget>)
    ensures r.Some? <==> option in AudioOptions
  {
    match option
    case "additional-play" => Some(AudioTarget("m_AdditionalPlayEffectDefs", true))
    case "attack" => Some(AudioTarget("m_AttackEffectDef", false))
    case "death" => Some(AudioTarget("m_DeathEffectDef", false))
    case "lifetime" => Some(AudioTarget("m_LifetimeEffectDef", false))
    case "trigger" => Some(AudioTarget("m_TriggerEffectDefs", true))
    case "sub-option" => Some(AudioTarget("m_SubOptionEffectDefs", true))
    case "reset-game" => Some(AudioTarget("m_ResetGameEffectDefs", true))
    case "sub-spell" => Some(AudioTarget("m_SubSpellEffectDefs", true))
    case _ => None
  }

  /** Distinct options read distinct fields, so the tables can be inverted. */
  lemma OptionTablesInjective(a: string, b: string)
    ensures a != b && ImageField(a).Some? && ImageField(b).Some? ==> ImageField(a) != ImageField(b)
    ensures a != b && AudioField(a).Some? && AudioField(b).Some? ==> AudioField(a).value.field != AudioField(b).value.field
  {
  }

  /** Only the three single-valued options (`attack`, `death`, `lifetime`) read a single effect definition. */
  lemma SingleValuedAudioOptions(option: string)
    ensures AudioField(option).Some? && !AudioField(option).value.isList <==> option in {"attack", "death", "lifetime"}
  {
  }
}
