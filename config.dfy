/**
 * The site-configuration reducer: on `SET_SITE_CONFIG` it validates the
 * payload against the configuration schema, normalises `pathPrefix` and
 * `assetPath`, defaults `pathPrefix`, `assetPath` and `polyfill`, and returns
 * a shallow copy of the payload as the new state; any other action leaves the
 * state as it is.
 */
module SiteConfig {
  import opened Paths

  datatype Option<T> = None | Some(value: T)

  datatype Result<T, E> = Success(value: T) | Failure(error: E)

  /**
   * A JavaScript value as it can appear in the configuration object. Objects,
   * arrays and functions are references: `Ref` holds the identity of the
   * referenced object, which a shallow copy shares rather than duplicates.
   */
  datatype Value =
    | Undefined
    | Null
    | Bool(b: bool)
    | Num(n: int)
    | Str(s: string)
    | Ref(id: nat)

  /**
   * JavaScript truthiness (numbers are integers here, so no NaN): exactly
   * `undefined`, `null`, `false`, `0` and `""` are falsy.
   */
  predicate Truthy(v: Value): (t: bool)
    ensures !t <==> v == Undefined || v == Null || v == Bool(false) || v == Num(0) || v == Str("")
  {
    match v
    case Undefined => false
    case Null => false
    case Bool(b) => b
    case Num(n) => n != 0
    case Str(s) => s != ""
    case Ref(_) => true
  }

  /** A configuration object: its own keys and their values. */
  type Payload = map<string, Value>

  /** The verdict of the external schema validator. */
  datatype Validation = Valid | Invalid(detail: string)

  /**
   * What the reducer throws. A schema failure carries the validator's detail
   * and whether the `linkPrefix` rename hint was logged; an undefined or null
   * payload that fails validation makes the hint check itself throw.
   */
  datatype ConfigError =
    | ValidationFailed(detail: string, renameHint: bool)
    | NoPayload(detail: string)

  const SetSiteConfig := "SET_SITE_CONFIG"
  const PathPrefix := "pathPrefix"
  const AssetPath := "assetPath"
  const Polyfill := "polyfill"
  const LinkPrefix := "linkPrefix"

  /** The two path keys normalised by the reducer. */
  predicate IsPathKey(key: string) {
    key == PathPrefix || key == AssetPath
  }

  /** A path value the reducer rewrites: a truthy, that is non-empty, string. */
  predicate IsSetPath(v: Value) {
    v.Str? && Truthy(v)
  }

  /** Keys every successfully reduced configuration carries. */
  predicate HasGuaranteedKeys(config: Payload) {
    PathPrefix in config && AssetPath in config && Polyfill in config
  }

  /** The value a path key ends up with, given the payload it came from. */
  function ExpectedPath(payload: Payload, key: string): Value {
    if key !in payload then Str("")
    else if IsSetPath(payload[key]) then Str(NormalizePath(payload[key].s))
    else payload[key]
  }

  /**
   * Normalises one path key in place when its value is a non-empty string:
   * the key ends up with its expected value, and an absent key stays absent.
   */
  function NormalizeField(payload: Payload, key: string): (r: Payload)
    ensures key in payload ==> key in r && r[key] == ExpectedPath(payload, key)
    ensures key !in payload ==> r == payload
  {
    if key in payload && IsSetPath(payload[key])
    then payload[key := Str(NormalizePath(payload[key].s))]
    else payload
  }

  /**
   * Sets a key to a default only when the key is absent (`_.has`/`_.set`):
   * afterwards the key is present, with its old value if it had one.
   */
  function DefaultField(payload: Payload, key: string, default: Value): (r: Payload)
    ensures key in r
    ensures key in payload ==> r == payload
    ensures key !in payload ==> r[key] == default
  {
    if key in payload then payload else payload[key := default]
  }

  /**
   * The payload after the normalisation and defaulting steps, in order; it
   * always carries the three guaranteed keys.
   */
  function Canonicalize(payload: Payload): (r: Payload)
    ensures HasGuaranteedKeys(r)
  {
    var normalized := NormalizeField(NormalizeField(payload, PathPrefix), AssetPath);
    var defaulted := DefaultField(DefaultField(normalized, PathPrefix, Str("")), AssetPath, Str(""));
    DefaultField(defaulted, Polyfill, Bool(true))
  }

  /**
   * The reducer as a function of the state, the action's type and payload,
   * and the schema. `None` stands for an undefined state or payload.
   */
  function Reducer(state: Option<Payload>, kind: string, payload: Option<Payload>,
                   schema: Option<Payload> -> Validation): (r: Result<Payload, ConfigError>)
    ensures r.Failure? <==> kind == SetSiteConfig && schema(payload).Invalid?
    ensures kind != SetSiteConfig && state.Some? ==> r == Success(state.value)
    ensures kind != SetSiteConfig && state.None? ==> r == Success(map[])
    ensures kind == SetSiteConfig && r.Success? ==> HasGuaranteedKeys(r.value)
  {
    if kind != SetSiteConfig then
      Success(if state.Some? then state.value else map[])
    else
      match schema(payload)
      case Invalid(detail) =>
        if payload.None? then Failure(NoPayload(detail))
        else
          var p := payload.value;
          Failure(ValidationFailed(detail, LinkPrefix in p && Truthy(p[LinkPrefix])))
      case Valid =>
        Success(Canonicalize(if payload.Some? then payload.value else map[]))
  }

  /** The dispatched action; the reducer rewrites its payload in place. */
  class Action {
    const kind: string
    var payload: Option<Payload>

    constructor (kind: string, payload: Option<Payload>)
      ensures this.kind == kind && this.payload == payload
    {
      this.kind := kind;
      this.payload := payload;
    }
  }

  /**
   * One path normalisation block: when the payload holds a non-empty string
   * under `key`, the start check and then the end strip are written back.
   */
  method NormalizePayloadPath(action: Action, key: string)
    modifies action
    ensures action.payload.None? <==> old(action.payload).None?
    ensures action.payload.Some? ==> action.payload.value == NormalizeField(old(action.payload).value, key)
  {
    if action.payload.Some? && key in action.payload.value && IsSetPath(action.payload.value[key]) {
      var p := action.payload.value;
      ghost var before := p;
      action.payload := Some(p[key := Str(EnsureStartsWithSlash(p[key].s))]);
      p := action.payload.value;
      action.payload := Some(p[key := Str(EnsureEndsWithNoSlash(p[key].s))]);
      assert action.payload.value == before[key := Str(NormalizePath(before[key].s))];
    }
  }

  /**
   * `_.set` of a default when `_.has` finds no `key` in the payload; an
   * undefined or null payload is first replaced by an empty object.
   */
  method DefaultPayloadKey(action: Action, key: string, default: Value)
    modifies action
    ensures action.payload == Some(DefaultField(if old(action.payload).Some? then old(action.payload).value else map[], key, default))
  {
    if !(action.payload.Some? && key in action.payload.value) {
      var p := if action.payload.Some? then action.payload.value else map[];
      action.payload := Some(p[key := default]);
    }
  }

  /**
   * The reducer step by step: every normalisation and default is written to
   * `action.payload`, and the new state is a copy of that payload.
   */
  method Reduce(state: Option<Payload>, action: Action, schema: Option<Payload> -> Validation)
    returns (r: Result<Payload, ConfigError>)
    modifies action
    ensures r == Reducer(state, action.kind, old(action.payload), schema)
    ensures action.kind == SetSiteConfig && r.Success? ==> action.payload == Some(r.value)
    ensures action.kind != SetSiteConfig || r.Failure? ==> action.payload == old(action.payload)
  {
    if action.kind != SetSiteConfig {
      return Success(if state.Some? then state.value else map[]);
    }
    var verdict := schema(action.payload);
    if verdict.Invalid? {
      if action.payload.None? {
        return Failure(NoPayload(verdict.detail));
      }
      var hint := LinkPrefix in action.payload.value && Truthy(action.payload.value[LinkPrefix]);
      return Failure(ValidationFailed(verdict.detail, hint));
    }
    ghost var given := if action.payload.Some? then action.payload.value else map[];
    NormalizePayloadPath(action, PathPrefix);
    NormalizePayloadPath(action, AssetPath);
    assert action.payload.None? ==> given == map[];
    DefaultPayloadKey(action, PathPrefix, Str(""));
    DefaultPayloadKey(action, AssetPath, Str(""));
    DefaultPayloadKey(action, Polyfill, Bool(true));
    r := Success(action.payload.value);
  }
}
