/**
 * The factory `create_generator`: the profile type picks the generator class,
 * and that class's constructor then checks the subtype.
 */
module Factory {
  import opened Wrappers
  import opened Const
  import opened Pcm
  import opened Rand
  import opened Colours
  import opened NoiseGenerators
  import opened AmbientGenerators
  import opened Profiles

  /** What `create_generator` returns: one of the two streaming generators. */
  datatype Generator = NoiseGen(noise: NoiseGenerator) | AmbientGen(ambient: AmbientGenerator)

  /** Which generator, and of which subtype, a (type, subtype) pair yields. */
  datatype Selection = NoiseSelection(noiseKind: NoiseKind) | AmbientSelection(ambientKind: AmbientKind)

  /**
   * The decision `create_generator` makes: "noise" and "ambient" pick a
   * family whose constructor accepts only its own three subtypes; any other
   * type raises `UnknownNoiseTypeError` naming the type, a subtype the chosen
   * constructor rejects raises it naming the subtype.
   */
  function Select(profileType: string, subtype: string): (r: Result<Selection, UnknownNoiseTypeError>)
    ensures r.Success? <==>
      (profileType == "noise" && subtype in NOISE_SUBTYPES) || (profileType == "ambient" && subtype in AMBIENT_SUBTYPES)
    ensures r.Failure? ==>
      r.error == UnknownNoiseTypeError(if profileType in {"noise", "ambient"} then subtype else profileType)
    ensures r.Success? && r.value.NoiseSelection? ==> profileType == "noise" && NoiseName(r.value.noiseKind) == subtype
    ensures r.Success? && r.value.AmbientSelection? ==> profileType == "ambient" && AmbientName(r.value.ambientKind) == subtype
  {
    if profileType == "noise" then
      match ParseNoiseKind(subtype)
      case Some(kind) => Success(NoiseSelection(kind))
      case None => Failure(UnknownNoiseTypeError(subtype))
    else if profileType == "ambient" then
      match ParseAmbientKind(subtype)
      case Some(kind) => Success(AmbientSelection(kind))
      case None => Failure(UnknownNoiseTypeError(subtype))
    else Failure(UnknownNoiseTypeError(profileType))
  }

  /**
   * `create_generator(profile_type, subtype, volume, seed, params)`: a fresh
   * generator of the selected kind with the volume clamped and zeroed state,
   * or the error `Select` names.  `draws` is the stream the seed gives, and
   * `params` is accepted and not used.
   */
  method CreateGenerator(profileType: string, subtype: string, volume: real, draws: Draws, params: map<string, Value>)
    returns (r: Result<Generator, UnknownNoiseTypeError>)
    ensures r.Failure? <==> Select(profileType, subtype).Failure?
    ensures r.Failure? ==> r.error == Select(profileType, subtype).error
    ensures r.Success? && Select(profileType, subtype).value.NoiseSelection? ==>
      && r.value.NoiseGen?
      && var g := r.value.noise;
      && fresh(g) && fresh(g.rng) && fresh(g.pinkState) && g.Valid()
      && g.noiseType == Select(profileType, subtype).value.noiseKind
      && g.volume == Clamp(volume, 0.0, 1.0) && g.rng.draws == draws
      && g.State() == NoiseState(ZERO_TAPS, 0.0, 0)
    ensures r.Success? && Select(profileType, subtype).value.AmbientSelection? ==>
      && r.value.AmbientGen?
      && var g := r.value.ambient;
      && fresh(g) && fresh(g.rng) && fresh(g.pinkState) && g.Valid()
      && g.ambientType == Select(profileType, subtype).value.ambientKind
      && g.volume == Clamp(volume, 0.0, 1.0) && g.rng.draws == draws
      && g.State() == INITIAL_AMBIENT
  {
    if profileType == "noise" {
      var made := NoiseGenerator.Create(subtype, volume, draws);
      match made
      case Success(g) => r := Success(NoiseGen(g));
      case Failure(e) => r := Failure(e);
    } else if profileType == "ambient" {
      var made := AmbientGenerator.Create(subtype, volume, draws);
      match made
      case Success(g) => r := Success(AmbientGen(g));
      case Failure(e) => r := Failure(e);
    } else {
      r := Failure(UnknownNoiseTypeError(profileType));
    }
  }

  /**
   * The normaliser does not check the subtype against a type it keeps: the
   * record {type: "noise", subtype: "rain"} comes out unchanged, and the
   * factory then rejects it naming the subtype.
   */
  lemma CrossFamilyProfileRejected()
    requires Consistent()
    requires "noise" in PROFILE_TYPES && "rain" in ALL_SUBTYPES && NORMALIZE_SUBTYPE("rain") == "rain"
    ensures var raw := map[CONF_PROFILE_TYPE := VStr("noise"), CONF_PROFILE_SUBTYPE := VStr("rain")];
      && CoerceProfile(raw).Success?
      && CoerceProfile(raw).value[CONF_PROFILE_TYPE] == VStr("noise")
      && CoerceProfile(raw).value[CONF_PROFILE_SUBTYPE] == VStr("rain")
      && Select("noise", "rain") == Failure(UnknownNoiseTypeError("rain"))
  {
  }

  /**
   * When the stored type is not a known one, the normaliser infers the
   * family from the subtype, so a record whose subtype is one of the six
   * streaming subtypes always reaches a generator.
   */
  lemma InferredProfileSelectable(raw: map<string, Value>)
    requires Consistent()
    requires CoerceProfile(raw).Success?
    requires !IsStrIn(Get(raw, CONF_PROFILE_TYPE), PROFILE_TYPES)
    requires Get(raw, CONF_PROFILE_SUBTYPE).VStr?
    requires NORMALIZE_SUBTYPE(Get(raw, CONF_PROFILE_SUBTYPE).s) in (NOISE_SUBTYPES + AMBIENT_SUBTYPES) * ALL_SUBTYPES
    ensures var p := CoerceProfile(raw).value;
      Select(p[CONF_PROFILE_TYPE].s, p[CONF_PROFILE_SUBTYPE].s).Success?
  {
    CoerceInfersType(raw);
    CoerceSubtype(raw);
  }
}
