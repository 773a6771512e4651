/**
 * What the synthesis code takes from the Python runtime and from the part of
 * `const.py` that is not part of this model.  Their values are not known
 * here, so they are declared without a definition; what the code relies on is
 * stated either in their types or in `Consistent()`.
 */
module Host {
  import opened Wrappers

  /** `math.pi` */
  const PI: real := 3.141592653589793

  /** `math.sin` (and `np.sin` element by element). */
  const SIN: real -> real

  /** What the code relies on about the sine: its values lie in [-1, 1]. */
  ghost predicate SineBounded() {
    forall x :: -1.0 <= SIN(x) <= 1.0
  }

  /** `np.exp` element by element. */
  const EXP: real -> real

  /**
   * The standard normal deviate numpy's generator derives from one uniform
   * draw (`np.random.normal(0, 1)`, `np.random.randn`).
   */
  const GAUSS: real -> real

  /**
   * `float(text)` for a string: `Some(x)` when the text denotes a number,
   * `None` when Python raises `ValueError`.
   */
  const PARSE_FLOAT: string -> Option<real>
}

/** The names imported by `noise.py` from `const.py` (whose definitions are not shown). */
module Const {

  type PositiveRate = r: int | r > 0 witness 1

  /** `SAMPLE_RATE`: samples per second of the streaming generators. */
  const SAMPLE_RATE: PositiveRate

  /** `ALL_SUBTYPES` and `PROFILE_TYPES`, as the sets their list `in` tests decide. */
  const ALL_SUBTYPES: set<string>
  const PROFILE_TYPES: set<string>

  const DEFAULT_PROFILE_TYPE: string
  const DEFAULT_PROFILE_SUBTYPE: string
  const DEFAULT_VOLUME: real

  /** `normalize_subtype` */
  const NORMALIZE_SUBTYPE: string -> string

  /** The dictionary keys `CONF_PROFILE_TYPE`, `CONF_PROFILE_SUBTYPE`, ... */
  const CONF_PROFILE_TYPE: string
  const CONF_PROFILE_SUBTYPE: string
  const CONF_PROFILE_PARAMETERS: string
  const CONF_VOLUME: string
  const CONF_SEED: string

  /**
   * What the profile normaliser needs of these values: the three profile keys
   * are distinct, the volume and seed keys are distinct, and the default
   * subtype is itself a valid subtype.
   */
  ghost predicate Consistent() {
    && CONF_PROFILE_TYPE != CONF_PROFILE_SUBTYPE
    && CONF_PROFILE_TYPE != CONF_PROFILE_PARAMETERS
    && CONF_PROFILE_SUBTYPE != CONF_PROFILE_PARAMETERS
    && CONF_VOLUME != CONF_SEED
    && DEFAULT_PROFILE_SUBTYPE in ALL_SUBTYPES
  }
}
