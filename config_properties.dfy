/**
 * What a successful `SET_SITE_CONFIG` guarantees about the new state, what a
 * failing one reports, and how the reducer behaves over a run of actions.
 */
module ConfigProperties {
  import opened Paths
  import opened SiteConfig

  /** A path key holding a non-empty string that ends with two slashes. */
  predicate EndsWithTwoSlashes(payload: Payload, key: string) {
    key in payload && IsSetPath(payload[key]) && EndsWithDoubleSlash(payload[key].s)
  }

  /** Normalising one key changes that key alone, to its expected value. */
  lemma NormalizeFieldSpec(payload: Payload, key: string)
    ensures NormalizeField(payload, key).Keys == payload.Keys
    ensures forall k :: k in payload && k != key ==> NormalizeField(payload, key)[k] == payload[k]
    ensures key in payload ==> NormalizeField(payload, key)[key] == ExpectedPath(payload, key)
  {
  }

  /** Defaulting adds the key when absent and changes no present key. */
  lemma DefaultFieldSpec(payload: Payload, key: string, default: Value)
    ensures DefaultField(payload, key, default).Keys == payload.Keys + {key}
    ensures forall k :: k in payload ==> DefaultField(payload, key, default)[k] == payload[k]
    ensures key !in payload ==> DefaultField(payload, key, default)[key] == default
  {
  }

  /**
   * The new state holds exactly the payload's keys plus the three guaranteed
   * ones; each path key holds its expected value, `polyfill` is kept or
   * defaulted to true, and every other key keeps its original value.
   */
  lemma CanonicalizeSpec(payload: Payload)
    ensures Canonicalize(payload).Keys == payload.Keys + {PathPrefix, AssetPath, Polyfill}
    ensures Canonicalize(payload)[PathPrefix] == ExpectedPath(payload, PathPrefix)
    ensures Canonicalize(payload)[AssetPath] == ExpectedPath(payload, AssetPath)
    ensures Canonicalize(payload)[Polyfill] ==
            if Polyfill in payload then payload[Polyfill] else Bool(true)
    ensures forall k :: k in payload && !IsPathKey(k) ==> Canonicalize(payload)[k] == payload[k]
  {
    var n1 := NormalizeField(payload, PathPrefix);
    var n2 := NormalizeField(n1, AssetPath);
    var d1 := DefaultField(n2, PathPrefix, Str(""));
    var d2 := DefaultField(d1, AssetPath, Str(""));
    var r := DefaultField(d2, Polyfill, Bool(true));
    NormalizeFieldSpec(payload, PathPrefix);
    NormalizeFieldSpec(n1, AssetPath);
    DefaultFieldSpec(n2, PathPrefix, Str(""));
    DefaultFieldSpec(d1, AssetPath, Str(""));
    DefaultFieldSpec(d2, Polyfill, Bool(true));
    assert r == Canonicalize(payload);
  }

  /** The value one path key ends up with. */
  lemma CanonicalizePath(payload: Payload, key: string)
    requires IsPathKey(key)
    ensures key in Canonicalize(payload)
    ensures Canonicalize(payload)[key] == ExpectedPath(payload, key)
  {
    CanonicalizeSpec(payload);
  }

  /**
   * A key the payload already has is never overwritten by a default: a
   * present path that is not a non-empty string (the empty string, false,
   * undefined, ...) stays exactly as given, and so does any present `polyfill`.
   */
  lemma PresentKeysNotDefaulted(payload: Payload)
    ensures PathPrefix in payload && !IsSetPath(payload[PathPrefix]) ==>
            Canonicalize(payload)[PathPrefix] == payload[PathPrefix]
    ensures AssetPath in payload && !IsSetPath(payload[AssetPath]) ==>
            Canonicalize(payload)[AssetPath] == payload[AssetPath]
    ensures Polyfill in payload ==> Canonicalize(payload)[Polyfill] == payload[Polyfill]
    ensures PathPrefix !in payload ==> Canonicalize(payload)[PathPrefix] == Str("")
    ensures AssetPath !in payload ==> Canonicalize(payload)[AssetPath] == Str("")
    ensures Polyfill !in payload ==> Canonicalize(payload)[Polyfill] == Bool(true)
  {
    CanonicalizeSpec(payload);
  }

  /**
   * The two paths are normalised independently: a path key's new value
   * depends only on that same key of the payload.
   */
  lemma PathKeysIndependent(p: Payload, q: Payload, key: string)
    requires IsPathKey(key)
    requires key in p <==> key in q
    requires key in p ==> p[key] == q[key]
    ensures Canonicalize(p)[key] == Canonicalize(q)[key]
  {
    CanonicalizeSpec(p);
    CanonicalizeSpec(q);
  }

  /** `seg`, `seg/` and `/seg/` under a path key all become `/seg`. */
  lemma SegmentPathsCanonical(payload: Payload, key: string, segment: string)
    requires IsPathKey(key)
    requires segment != "" && !StartsWithSlash(segment) && !EndsWithSlash(segment)
    requires key in payload
    requires payload[key] in {Str(segment), Str(segment + "/"), Str("/" + segment + "/")}
    ensures Canonicalize(payload)[key] == Str("/" + segment)
  {
    CanonicalizePath(payload, key);
    assert ExpectedPath(payload, key) == Str("/" + segment) by {
      NormalizeBareSegment(segment);
      assert payload[key].Str? && payload[key].s != "";
    }
  }

  /** A path of exactly `/` collapses to the empty string. */
  lemma LoneSlashCollapses(payload: Payload, key: string)
    requires IsPathKey(key)
    requires key in payload && payload[key] == Str("/")
    ensures Canonicalize(payload)[key] == Str("")
  {
    CanonicalizePath(payload, key);
    NormalizeToEmpty("/");
  }

  /**
   * A path value that one pass produced is left alone by a second pass
   * exactly when the original did not end with two slashes.
   */
  lemma SecondPassPath(payload: Payload, key: string, once: Payload)
    requires IsPathKey(key)
    requires key in once && once[key] == ExpectedPath(payload, key)
    ensures ExpectedPath(once, key) == once[key] <==> !EndsWithTwoSlashes(payload, key)
  {
    if key in payload && IsSetPath(payload[key]) {
      var s := payload[key].s;
      var n := NormalizePath(s);
      assert once[key] == Str(n);
      if n == "" {
        NormalizeToEmpty(s);
        assert |s| < 2;
      } else {
        NormalizeIdempotentIff(s);
        assert ExpectedPath(once, key) == Str(NormalizePath(n));
      }
    } else {
      assert !IsSetPath(once[key]);
    }
  }

  /**
   * One path key comes through a second pass unchanged exactly when its
   * original value did not end with two slashes.
   */
  lemma PathStableIff(payload: Payload, key: string)
    requires IsPathKey(key)
    ensures Canonicalize(Canonicalize(payload))[key] == Canonicalize(payload)[key]
            <==> !EndsWithTwoSlashes(payload, key)
  {
    var once := Canonicalize(payload);
    CanonicalizePath(payload, key);
    CanonicalizePath(once, key);
    SecondPassPath(payload, key, once);
  }

  /**
   * A map that agrees with `config` on the three guaranteed keys and on
   * every other key of `config`, and has no further keys, is `config`.
   */
  lemma SameOnEveryKey(config: Payload, again: Payload)
    requires HasGuaranteedKeys(config)
    requires again.Keys == config.Keys + {PathPrefix, AssetPath, Polyfill}
    requires again[PathPrefix] == config[PathPrefix] && again[AssetPath] == config[AssetPath]
    requires again[Polyfill] == config[Polyfill]
    requires forall k :: k in config && !IsPathKey(k) ==> again[k] == config[k]
    ensures again == config
  {
    assert again.Keys == config.Keys;
    forall k | k in config ensures again[k] == config[k] {
      if !IsPathKey(k) {
        assert k in config && !IsPathKey(k);
      }
    }
  }

  /** A configuration whose path keys a pass leaves alone is left alone entirely. */
  lemma FixedWhenPathsFixed(config: Payload)
    requires HasGuaranteedKeys(config)
    requires Canonicalize(config)[PathPrefix] == config[PathPrefix]
    requires Canonicalize(config)[AssetPath] == config[AssetPath]
    ensures Canonicalize(config) == config
  {
    CanonicalizeSpec(config);
    SameOnEveryKey(config, Canonicalize(config));
  }

  /**
   * Feeding a produced configuration back through the same steps leaves it
   * unchanged exactly when neither path ended with two slashes (only one
   * trailing slash is stripped per pass).
   */
  lemma CanonicalizeIdempotentIff(payload: Payload)
    ensures Canonicalize(Canonicalize(payload)) == Canonicalize(payload)
            <==> !EndsWithTwoSlashes(payload, PathPrefix) && !EndsWithTwoSlashes(payload, AssetPath)
  {
    PathStableIff(payload, PathPrefix);
    PathStableIff(payload, AssetPath);
    if !EndsWithTwoSlashes(payload, PathPrefix) && !EndsWithTwoSlashes(payload, AssetPath) {
      CanonicalizeSpec(payload);
      FixedWhenPathsFixed(Canonicalize(payload));
    }
  }

  /**
   * A failing validation reports the validator's detail, and the rename hint
   * is logged exactly when the payload has a truthy `linkPrefix`.
   */
  lemma InvalidPayloadRejected(state: Option<Payload>, payload: Payload,
                               schema: Option<Payload> -> Validation)
    requires schema(Some(payload)).Invalid?
    ensures Reducer(state, SetSiteConfig, Some(payload), schema).Failure?
    ensures var e := Reducer(state, SetSiteConfig, Some(payload), schema).error;
            e.ValidationFailed? && e.detail == schema(Some(payload)).detail
            && (e.renameHint <==> LinkPrefix in payload && Truthy(payload[LinkPrefix]))
  {
  }

  /**
   * With no payload at all, a passing validation yields the three defaults
   * and nothing else; a failing one throws before any hint can be logged.
   */
  lemma MissingPayload(state: Option<Payload>, schema: Option<Payload> -> Validation)
    ensures schema(None).Valid? ==>
            Reducer(state, SetSiteConfig, None, schema)
            == Success(map[PathPrefix := Str(""), AssetPath := Str(""), Polyfill := Bool(true)])
    ensures schema(None).Invalid? ==>
            Reducer(state, SetSiteConfig, None, schema) == Failure(NoPayload(schema(None).detail))
  {
    if schema(None).Valid? {
      CanonicalizeSpec(map[]);
    }
  }

  /**
   * A payload with a set `pathPrefix` and neither `assetPath` nor `polyfill`
   * gets the normalised path and the two other defaults.
   */
  lemma CanonicalizeOnlyPathPrefix(payload: Payload)
    requires PathPrefix in payload && IsSetPath(payload[PathPrefix])
    requires AssetPath !in payload && Polyfill !in payload
    ensures Canonicalize(payload)
            == payload[PathPrefix := Str(NormalizePath(payload[PathPrefix].s))]
                      [AssetPath := Str("")][Polyfill := Bool(true)]
  {
    KeysDistinct();
    var normalized := payload[PathPrefix := Str(NormalizePath(payload[PathPrefix].s))];
    var n1 := NormalizeField(payload, PathPrefix);
    assert n1 == normalized;
    var n2 := NormalizeField(n1, AssetPath);
    assert n2 == normalized by {
      assert AssetPath !in n1;
    }
    var d1 := DefaultField(n2, PathPrefix, Str(""));
    assert d1 == normalized;
    var d2 := DefaultField(d1, AssetPath, Str(""));
    assert d2 == normalized[AssetPath := Str("")] by {
      assert AssetPath !in d1;
    }
    assert Polyfill !in d2;
  }

  /** The five keys the reducer reads are distinct. */
  lemma KeysDistinct()
    ensures PathPrefix != AssetPath && PathPrefix != Polyfill && PathPrefix != LinkPrefix
    ensures AssetPath != Polyfill && AssetPath != LinkPrefix && Polyfill != LinkPrefix
  {
    assert PathPrefix[0] == 'p' && PathPrefix[1] == 'a';
    assert AssetPath[0] == 'a' && LinkPrefix[0] == 'l';
    assert Polyfill[0] == 'p' && Polyfill[1] == 'o';
  }

  /**
   * Reordering the updates of the `{pathPrefix: "blog/", linkPrefix: x}`
   * example into one map display.
   */
  lemma UpdatesAsDisplay<K, V>(k1: K, k2: K, k3: K, k4: K, a: V, b: V, c: V, d: V, e: V)
    requires k1 != k2 && k1 != k3 && k1 != k4 && k2 != k3 && k2 != k4 && k3 != k4
    ensures map[k1 := a, k4 := e][k1 := b][k2 := c][k3 := d] == map[k1 := b, k2 := c, k3 := d, k4 := e]
  {
  }

  /** The new state for the `{pathPrefix: "blog/", linkPrefix: x}` example below. */
  lemma LegacyLinkPrefixCanonical(segment: string, link: Value)
    requires segment != "" && !StartsWithSlash(segment) && !EndsWithSlash(segment)
    ensures Canonicalize(map[PathPrefix := Str(segment + "/"), LinkPrefix := link])
            == map[PathPrefix := Str("/" + segment), AssetPath := Str(""), Polyfill := Bool(true),
                   LinkPrefix := link]
  {
    var payload := map[PathPrefix := Str(segment + "/"), LinkPrefix := link];
    var updated := payload[PathPrefix := Str("/" + segment)][AssetPath := Str("")][Polyfill := Bool(true)];
    assert Canonicalize(payload) == updated by {
      KeysDistinct();
      NormalizeBareSegment(segment);
      CanonicalizeOnlyPathPrefix(payload);
    }
    assert updated == map[PathPrefix := Str("/" + segment), AssetPath := Str(""), Polyfill := Bool(true),
                          LinkPrefix := link] by {
      KeysDistinct();
      UpdatesAsDisplay(PathPrefix, AssetPath, Polyfill, LinkPrefix,
                       Str(segment + "/"), Str("/" + segment), Str(""), Bool(true), link);
    }
  }

  /**
   * The payload `{pathPrefix: "blog/", linkPrefix: x}`, for any bare segment
   * in place of `blog` and any legacy `linkPrefix` value: `blog/` becomes `/blog`, the other two keys
   * are defaulted and `linkPrefix` is carried over untouched.
   */
  lemma LegacyLinkPrefixExample(state: Option<Payload>, schema: Option<Payload> -> Validation,
                                segment: string, link: Value)
    requires segment != "" && !StartsWithSlash(segment) && !EndsWithSlash(segment)
    requires schema(Some(map[PathPrefix := Str(segment + "/"), LinkPrefix := link])).Valid?
    ensures Reducer(state, SetSiteConfig, Some(map[PathPrefix := Str(segment + "/"), LinkPrefix := link]), schema)
            == Success(map[PathPrefix := Str("/" + segment), AssetPath := Str(""), Polyfill := Bool(true),
                           LinkPrefix := link])
  {
    var payload := map[PathPrefix := Str(segment + "/"), LinkPrefix := link];
    LegacyLinkPrefixCanonical(segment, link);
    assert Reducer(state, SetSiteConfig, Some(payload), schema) == Success(Canonicalize(payload));
  }

  /**
   * A dispatched action: its type and its (possibly undefined) payload. It is
   * the value form of `SiteConfig.Action`, for reasoning about runs of actions.
   */
  datatype Dispatch = Dispatch(kind: string, payload: Option<Payload>)

  /**
   * The store folding the reducer over a sequence of actions, starting from
   * `state`; a throw aborts the run.
   */
  function Run(state: Option<Payload>, actions: seq<Dispatch>,
               schema: Option<Payload> -> Validation): Result<Payload, ConfigError>
    decreases |actions|
  {
    if actions == [] then Success(if state.Some? then state.value else map[])
    else
      match Reducer(state, actions[0].kind, actions[0].payload, schema)
      case Failure(e) => Failure(e)
      case Success(next) => Run(Some(next), actions[1..], schema)
  }

  /** The action is a `SET_SITE_CONFIG`. */
  predicate IsSetSiteConfig(d: Dispatch) {
    d.kind == SetSiteConfig
  }

  /**
   * Once configured, always configured: after a successful run that started
   * configured or contains a `SET_SITE_CONFIG`, the state has all three
   * guaranteed keys.
   */
  lemma {:induction false} ConfiguredIsAbsorbing(state: Option<Payload>, actions: seq<Dispatch>,
                                                 schema: Option<Payload> -> Validation)
    requires Run(state, actions, schema).Success?
    requires (state.Some? && HasGuaranteedKeys(state.value))
             || exists i :: 0 <= i < |actions| && IsSetSiteConfig(actions[i])
    ensures HasGuaranteedKeys(Run(state, actions, schema).value)
    decreases |actions|
  {
    if actions != [] {
      var next := Reducer(state, actions[0].kind, actions[0].payload, schema).value;
      if !IsSetSiteConfig(actions[0]) && !(state.Some? && HasGuaranteedKeys(state.value)) {
        var i :| 0 <= i < |actions| && IsSetSiteConfig(actions[i]);
        assert IsSetSiteConfig(actions[1..][i - 1]);
      }
      ConfiguredIsAbsorbing(Some(next), actions[1..], schema);
    }
  }

  /** Actions other than `SET_SITE_CONFIG` never change the state. */
  lemma {:induction false} OtherActionsKeepState(state: Option<Payload>, actions: seq<Dispatch>,
                                                 schema: Option<Payload> -> Validation)
    requires forall i :: 0 <= i < |actions| ==> !IsSetSiteConfig(actions[i])
    ensures Run(state, actions, schema) == Success(if state.Some? then state.value else map[])
    decreases |actions|
  {
    if actions != [] {
      var start := if state.Some? then state.value else map[];
      assert Reducer(state, actions[0].kind, actions[0].payload, schema) == Success(start);
      OtherActionsKeepState(Some(start), actions[1..], schema);
    }
  }
}
