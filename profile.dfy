/**
 * The profile normaliser `coerce_profile`: it turns one stored profile record
 * into a fresh dictionary with exactly a type, a subtype and a parameters
 * entry, the volume clamped to [0, 1] and an empty seed removed.
 */
module Profiles {
  import opened Wrappers
  import opened Host
  import opened Const
  import opened Pcm

  /** The Python values a stored profile can hold. */
  datatype Value =
    | VNone
    | VBool(b: bool)
    | VInt(i: int)
    | VFloat(f: real)
    | VStr(s: string)
    | VList(items: seq<Value>)
    | VDict(entries: map<string, Value>)

  /** The exceptions the builtins `dict()` and `float()` raise inside `coerce_profile`. */
  datatype CoerceError =
    | TypeError
    | ValueError
      /** `dict()` built a dictionary with a key that is not a string (see README, "Left out"). */
    | NonStringKey

  /** `d.get(key)`: a missing key reads as `None`. */
  function Get(d: map<string, Value>, key: string): Value {
    if key in d then d[key] else VNone
  }

  /** `x in [..strings..]` for an arbitrary value: only a string can be equal to a string. */
  predicate IsStrIn(v: Value, names: set<string>) {
    v.VStr? && v.s in names
  }

  const NOISE_SUBTYPES: set<string> := {"white", "pink", "brown"}
  const AMBIENT_SUBTYPES: set<string> := {"rain", "wind", "fan"}

  /** The subtype after `normalize_subtype`, which is applied to strings only. */
  function NormalizedSubtype(raw: map<string, Value>): (v: Value)
    ensures Get(raw, CONF_PROFILE_SUBTYPE).VStr? <==> v.VStr?
    ensures !v.VStr? ==> v == Get(raw, CONF_PROFILE_SUBTYPE)
  {
    var v := Get(raw, CONF_PROFILE_SUBTYPE);
    if v.VStr? then VStr(NORMALIZE_SUBTYPE(v.s)) else v
  }

  /** The profile type: kept when it is a known type, otherwise inferred from the subtype's family. */
  function ProfileType(typeValue: Value, subtype: Value): (t: string)
    ensures IsStrIn(typeValue, PROFILE_TYPES) ==> t == typeValue.s
    ensures !IsStrIn(typeValue, PROFILE_TYPES) ==>
      t == (if IsStrIn(subtype, NOISE_SUBTYPES) then "noise"
            else if IsStrIn(subtype, AMBIENT_SUBTYPES) then "ambient"
            else DEFAULT_PROFILE_TYPE)
  {
    if IsStrIn(typeValue, PROFILE_TYPES) then typeValue.s
    else if IsStrIn(subtype, NOISE_SUBTYPES) then "noise"
    else if IsStrIn(subtype, AMBIENT_SUBTYPES) then "ambient"
    else DEFAULT_PROFILE_TYPE
  }

  /** The subtype after validation: a valid subtype stays, anything else becomes the default. */
  function ValidSubtype(subtype: Value): (s: string)
    ensures IsStrIn(subtype, ALL_SUBTYPES) <==> (subtype.VStr? && s == subtype.s && s in ALL_SUBTYPES)
    ensures !IsStrIn(subtype, ALL_SUBTYPES) ==> s == DEFAULT_PROFILE_SUBTYPE
  {
    if IsStrIn(subtype, ALL_SUBTYPES) then subtype.s else DEFAULT_PROFILE_SUBTYPE
  }

  /**
   * A hashable dictionary key produced by `dict()` from a pair: a string;
   * a list or dictionary is unhashable.
   */
  function KeyOf(k: Value): (r: Result<string, CoerceError>)
    ensures r.Success? <==> k.VStr?
    ensures r.Success? ==> r.value == k.s
    ensures (k.VList? || k.VDict?) ==> r == Failure(TypeError)
  {
    match k
    case VStr(s) => Success(s)
    case VList(_) => Failure(TypeError)
    case VDict(_) => Failure(TypeError)
    case _ => Failure(NonStringKey)
  }

  /**
   * One element of the iterable given to `dict()`: it must be a sequence of
   * length two (a two-element list or a two-character string).
   */
  function PairOf(item: Value): (r: Result<(string, Value), CoerceError>)
    ensures r.Success? ==> (item.VList? && |item.items| == 2) || (item.VStr? && |item.s| == 2)
    ensures (item.VNone? || item.VBool? || item.VInt? || item.VFloat?) ==> r == Failure(TypeError)
  {
    match item
    case VList(xs) =>
      if |xs| != 2 then Failure(ValueError)
      else (match KeyOf(xs[0])
            case Success(k) => Success((k, xs[1]))
            case Failure(e) => Failure(e))
    case VStr(s) =>
      if |s| != 2 then Failure(ValueError) else Success((s[..1], VStr(s[1..])))
    case VDict(m) =>
      // A two-entry dictionary is iterated as its two keys, whose order a map does not keep.
      if |m| != 2 then Failure(ValueError) else Failure(NonStringKey)
    case _ => Failure(TypeError)
  }

  /** `dict(pairs)`: the pairs inserted left to right (a later key wins); the first bad element raises. */
  function DictOfPairs(items: seq<Value>): (r: Result<map<string, Value>, CoerceError>)
    ensures r.Success? ==> forall i :: 0 <= i < |items| ==> PairOf(items[i]).Success?
    ensures r.Success? ==> forall i :: 0 <= i < |items| ==> PairOf(items[i]).value.0 in r.value
    decreases |items|
  {
    if items == [] then Success(map[])
    else
      var n := |items| - 1;
      match DictOfPairs(items[..n])
      case Failure(e) => Failure(e)
      case Success(m) =>
        match PairOf(items[n])
        case Failure(e) => Failure(e)
        case Success(kv) => Success(m[kv.0 := kv.1])
  }

  /** `dict(pairs)` holds exactly the keys of the pairs. */
  lemma {:induction false} DictOfPairsKeys(items: seq<Value>)
    requires DictOfPairs(items).Success?
    ensures forall k :: k in DictOfPairs(items).value <==>
      exists i :: 0 <= i < |items| && PairOf(items[i]).value.0 == k
    decreases |items|
  {
    if items != [] {
      var n := |items| - 1;
      var front := items[..n];
      DictOfPairsKeys(front);
      var m := DictOfPairs(front).value;
      var kv := PairOf(items[n]).value;
      var all := m[kv.0 := kv.1];
      assert DictOfPairs(items).value == all;
      forall k ensures k in all <==> exists i :: 0 <= i < |items| && PairOf(items[i]).value.0 == k {
        if k in m && k != kv.0 {
          var i :| 0 <= i < |front| && PairOf(front[i]).value.0 == k;
          assert items[i] == front[i];
        }
        if exists i :: 0 <= i < |items| && PairOf(items[i]).value.0 == k {
          var i :| 0 <= i < |items| && PairOf(items[i]).value.0 == k;
          if i < n {
            assert items[i] == front[i];
          }
        }
      }
    }
  }

  /** A key of `dict(pairs)` maps to the value of its last pair. */
  lemma {:induction false} DictOfPairsLastWins(items: seq<Value>, i: nat)
    requires DictOfPairs(items).Success?
    requires i < |items|
    requires forall j :: i < j < |items| ==> PairOf(items[j]).value.0 != PairOf(items[i]).value.0
    ensures DictOfPairs(items).value[PairOf(items[i]).value.0] == PairOf(items[i]).value.1
    decreases |items|
  {
    var n := |items| - 1;
    var front := items[..n];
    var m := DictOfPairs(front).value;
    var kv := PairOf(items[n]).value;
    assert DictOfPairs(items).value == m[kv.0 := kv.1];
    if i < n {
      assert items[i] == front[i];
      forall j | i < j < |front| ensures PairOf(front[j]).value.0 != PairOf(front[i]).value.0 {
        assert items[j] == front[j];
      }
      DictOfPairsLastWins(front, i);
    }
  }

  /** `dict(v)`: a copy of a dictionary, or the dictionary built from an iterable of pairs. */
  function DictOf(v: Value): (r: Result<map<string, Value>, CoerceError>)
    ensures v.VDict? ==> r == Success(v.entries)
    ensures (v.VNone? || v.VBool? || v.VInt? || v.VFloat?) ==> r == Failure(TypeError)
    ensures v == VStr("") || v == VList([]) ==> r == Success(map[])
  {
    match v
    case VDict(m) => Success(m)
    case VStr(s) =>
      // Each character is a sequence of length one, not two.
      if s == "" then Success(map[]) else Failure(ValueError)
    case VList(items) => DictOfPairs(items)
    case _ => Failure(TypeError)
  }

  /** `float(v)` */
  function FloatOf(v: Value): (r: Result<real, CoerceError>)
    ensures v.VFloat? ==> r == Success(v.f)
    ensures v.VInt? ==> r == Success(v.i as real)
    ensures (v.VNone? || v.VList? || v.VDict?) ==> r == Failure(TypeError)
    ensures v.VStr? ==> (r.Success? <==> PARSE_FLOAT(v.s).Some?)
  {
    match v
    case VFloat(f) => Success(f)
    case VInt(i) => Success(i as real)
    case VBool(b) => Success(if b then 1.0 else 0.0)
    case VStr(s) =>
      (match PARSE_FLOAT(s)
       case Some(x) => Success(x)
       case None => Failure(ValueError))
    case _ => Failure(TypeError)
  }

  /** The value `dict()` is applied to: the stored parameters, or `{}` when there are none. */
  function RawParameters(raw: map<string, Value>): Value {
    if CONF_PROFILE_PARAMETERS in raw then raw[CONF_PROFILE_PARAMETERS] else VDict(map[])
  }

  /** The volume read from the copied parameters, before clamping. */
  function RawVolume(params: map<string, Value>): Result<real, CoerceError> {
    if CONF_VOLUME in params then FloatOf(params[CONF_VOLUME]) else Success(DEFAULT_VOLUME)
  }

  /** `seed in ("", None)` */
  predicate EmptySeed(seed: Value) {
    seed == VStr("") || seed == VNone
  }

  /** The parameter dictionary of the result: volume clamped, an empty seed removed. */
  function CoerceParameters(raw: map<string, Value>): (r: Result<map<string, Value>, CoerceError>)
    ensures r.Failure? <==> DictOf(RawParameters(raw)).Failure? || RawVolume(DictOf(RawParameters(raw)).value).Failure?
  {
    match DictOf(RawParameters(raw))
    case Failure(e) => Failure(e)
    case Success(params) =>
      match RawVolume(params)
      case Failure(e) => Failure(e)
      case Success(volume) =>
        var withVolume := params[CONF_VOLUME := VFloat(Clamp(volume, 0.0, 1.0))];
        var seed := Get(withVolume, CONF_SEED);
        if EmptySeed(seed) then Success(withVolume - {CONF_SEED})
        else Success(withVolume[CONF_SEED := seed])
  }

  /** `coerce_profile(raw)`: the normalised record, or the exception `dict()`/`float()` raised. */
  function CoerceProfile(raw: map<string, Value>): (r: Result<map<string, Value>, CoerceError>)
    ensures r.Failure? <==> CoerceParameters(raw).Failure?
  {
    var subtype := NormalizedSubtype(raw);
    var profileType := ProfileType(Get(raw, CONF_PROFILE_TYPE), subtype);
    var validSubtype := ValidSubtype(subtype);
    match CoerceParameters(raw)
    case Failure(e) => Failure(e)
    case Success(params) =>
      Success(map[CONF_PROFILE_TYPE := VStr(profileType)]
                 [CONF_PROFILE_SUBTYPE := VStr(validSubtype)]
                 [CONF_PROFILE_PARAMETERS := VDict(params)])
  }

  // ---------------------------------------------------------------------------
  // What the normaliser guarantees
  // ---------------------------------------------------------------------------

  /**
   * Shape of a normalised record: exactly the three keys; a string type and a
   * valid string subtype; a parameters dictionary whose volume is a float in
   * [0, 1] and whose seed, when present, is neither "" nor None.
   */
  lemma CoerceShape(raw: map<string, Value>)
    requires Consistent()
    requires CoerceProfile(raw).Success?
    ensures var p := CoerceProfile(raw).value;
      && p.Keys == {CONF_PROFILE_TYPE, CONF_PROFILE_SUBTYPE, CONF_PROFILE_PARAMETERS}
      && p[CONF_PROFILE_TYPE].VStr?
      && p[CONF_PROFILE_SUBTYPE].VStr? && p[CONF_PROFILE_SUBTYPE].s in ALL_SUBTYPES
      && p[CONF_PROFILE_PARAMETERS].VDict?
      && CONF_VOLUME in p[CONF_PROFILE_PARAMETERS].entries
      && p[CONF_PROFILE_PARAMETERS].entries[CONF_VOLUME].VFloat?
      && 0.0 <= p[CONF_PROFILE_PARAMETERS].entries[CONF_VOLUME].f <= 1.0
      && (CONF_SEED in p[CONF_PROFILE_PARAMETERS].entries ==>
            !EmptySeed(p[CONF_PROFILE_PARAMETERS].entries[CONF_SEED]))
  {
  }

  /** A type in `PROFILE_TYPES` is kept as given, whatever family the subtype belongs to. */
  lemma CoerceKeepsKnownType(raw: map<string, Value>)
    requires Consistent()
    requires CoerceProfile(raw).Success?
    requires IsStrIn(Get(raw, CONF_PROFILE_TYPE), PROFILE_TYPES)
    ensures CoerceProfile(raw).value[CONF_PROFILE_TYPE] == Get(raw, CONF_PROFILE_TYPE)
  {
  }

  /**
   * Any other type is replaced by the family of the normalised subtype
   * ("noise" or "ambient"), or by `DEFAULT_PROFILE_TYPE` when the subtype
   * belongs to neither family.
   */
  lemma CoerceInfersType(raw: map<string, Value>)
    requires Consistent()
    requires CoerceProfile(raw).Success?
    requires !IsStrIn(Get(raw, CONF_PROFILE_TYPE), PROFILE_TYPES)
    ensures var t := CoerceProfile(raw).value[CONF_PROFILE_TYPE];
      var stored := Get(raw, CONF_PROFILE_SUBTYPE);
      && (stored.VStr? && NORMALIZE_SUBTYPE(stored.s) in NOISE_SUBTYPES ==> t == VStr("noise"))
      && (stored.VStr? && NORMALIZE_SUBTYPE(stored.s) in AMBIENT_SUBTYPES ==> t == VStr("ambient"))
      && (!(stored.VStr? && NORMALIZE_SUBTYPE(stored.s) in NOISE_SUBTYPES + AMBIENT_SUBTYPES) ==> t == VStr(DEFAULT_PROFILE_TYPE))
  {
  }

  /**
   * A stored string subtype is passed through `normalize_subtype`; the result
   * is kept when it is a known subtype. A missing subtype, one that is not a
   * string, or one that normalises to an unknown name becomes the default.
   */
  lemma CoerceSubtype(raw: map<string, Value>)
    requires Consistent()
    requires CoerceProfile(raw).Success?
    ensures var s := CoerceProfile(raw).value[CONF_PROFILE_SUBTYPE];
      var stored := Get(raw, CONF_PROFILE_SUBTYPE);
      && (stored.VStr? && NORMALIZE_SUBTYPE(stored.s) in ALL_SUBTYPES ==> s == VStr(NORMALIZE_SUBTYPE(stored.s)))
      && (!(stored.VStr? && NORMALIZE_SUBTYPE(stored.s) in ALL_SUBTYPES) ==> s == VStr(DEFAULT_PROFILE_SUBTYPE))
  {
  }

  /**
   * The parameters of the result are those of `dict(parameters)`, with the
   * volume replaced by its clamped float, the seed kept exactly when it is
   * neither "" nor None, and every other entry unchanged.
   */
  lemma CoerceParameterEntries(raw: map<string, Value>)
    requires Consistent()
    requires CoerceProfile(raw).Success?
    ensures var given := DictOf(RawParameters(raw)).value;
      var out := CoerceProfile(raw).value[CONF_PROFILE_PARAMETERS].entries;
      && out[CONF_VOLUME] == VFloat(Clamp(RawVolume(given).value, 0.0, 1.0))
      && (CONF_SEED in out <==> !EmptySeed(Get(given, CONF_SEED)))
      && (CONF_SEED in out ==> out[CONF_SEED] == given[CONF_SEED])
      && (forall k :: k in given && k != CONF_VOLUME && k != CONF_SEED ==> k in out && out[k] == given[k])
      && out.Keys <= given.Keys + {CONF_VOLUME}
  {
  }

  /**
   * `coerce_profile` fails exactly when `dict()` rejects the stored parameters
   * or `float()` rejects the stored volume; the missing-parameters and
   * missing-volume cases use `{}` and `DEFAULT_VOLUME` and cannot fail.
   */
  lemma CoerceFailures(raw: map<string, Value>)
    ensures CONF_PROFILE_PARAMETERS !in raw ==> CoerceProfile(raw).Success?
    ensures CONF_PROFILE_PARAMETERS in raw && raw[CONF_PROFILE_PARAMETERS].VDict? ==>
      (CoerceProfile(raw).Failure? <==>
        (CONF_VOLUME in raw[CONF_PROFILE_PARAMETERS].entries &&
         FloatOf(raw[CONF_PROFILE_PARAMETERS].entries[CONF_VOLUME]).Failure?))
    ensures CONF_PROFILE_PARAMETERS in raw && raw[CONF_PROFILE_PARAMETERS] == VNone ==>
      CoerceProfile(raw) == Failure(TypeError)
  {
  }

  /**
   * What makes normalising twice the same as normalising once: the three
   * family names and the default type are known types, and `normalize_subtype`
   * leaves a valid subtype as it is.
   */
  ghost predicate StableNames() {
    && {"noise", "ambient", DEFAULT_PROFILE_TYPE} <= PROFILE_TYPES
    && forall s :: s in ALL_SUBTYPES ==> NORMALIZE_SUBTYPE(s) == s
  }

  /** Normalising a normalised record changes nothing. */
  lemma CoerceIdempotent(raw: map<string, Value>)
    requires Consistent() && StableNames()
    requires CoerceProfile(raw).Success?
    ensures CoerceProfile(CoerceProfile(raw).value) == CoerceProfile(raw)
  {
    var p := CoerceProfile(raw).value;
    var params := p[CONF_PROFILE_PARAMETERS].entries;
    CoerceShape(raw);
    var v := params[CONF_VOLUME].f;
    assert Clamp(v, 0.0, 1.0) == v;
    assert params[CONF_VOLUME := VFloat(v)] == params;
    if CONF_SEED in params {
      assert params[CONF_VOLUME := VFloat(v)][CONF_SEED := params[CONF_SEED]] == params;
    } else {
      assert params - {CONF_SEED} == params;
    }
  }

  /** A bogus subtype is replaced by the default and a volume of 1.4 is clamped to 1.0. */
  lemma BogusSubtypeExample()
    requires Consistent()
    requires NORMALIZE_SUBTYPE("bogus") !in ALL_SUBTYPES
    ensures var raw := map[CONF_PROFILE_SUBTYPE := VStr("bogus"),
                           CONF_PROFILE_PARAMETERS := VDict(map[CONF_VOLUME := VFloat(1.4)])];
      && CoerceProfile(raw).Success?
      && CoerceProfile(raw).value[CONF_PROFILE_SUBTYPE] == VStr(DEFAULT_PROFILE_SUBTYPE)
      && CoerceProfile(raw).value[CONF_PROFILE_PARAMETERS].entries[CONF_VOLUME] == VFloat(1.0)
  {
  }

  /** An empty seed is removed from the parameters altogether. */
  lemma EmptySeedExample()
    requires Consistent()
    ensures var raw := map[CONF_PROFILE_PARAMETERS := VDict(map[CONF_SEED := VStr("")])];
      && CoerceProfile(raw).Success?
      && CONF_SEED !in CoerceProfile(raw).value[CONF_PROFILE_PARAMETERS].entries
  {
  }
}
