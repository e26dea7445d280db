# Gatsby site-configuration reducer, in Dafny

This project models the Redux reducer that Gatsby uses to accept the site
configuration (`gatsby-config.js`). When a `SET_SITE_CONFIG` action arrives,
the reducer does four things in order:

1. It validates the payload against the configuration schema. On failure it
   logs the error, adds a hint when `linkPrefix` is set, and throws.
2. It normalises `pathPrefix` and `assetPath` when they are set. The path gets
   a leading `/` if it lacks one, and then loses one trailing `/`.
3. It defaults `pathPrefix` and `assetPath` to `""`, and `polyfill` to `true`,
   but only for keys the payload does not have.
4. It returns a shallow copy of the payload as the new state.

Any other action returns the current state, which is `{}` when undefined.

Files:

- `paths.dfy`, module `Paths`: the two slash helpers and their composition
  `NormalizePath`, with lemmas on its shape, its fixed points, the collapse of
  `/` to `""`, and when it is idempotent.
- `config.dfy`, module `SiteConfig`: the JavaScript values a configuration can
  hold (`Value`), with JavaScript truthiness, and the payload as
  `map<string, Value>`. `Reducer` is the reducer as a function. `Reduce` is the
  step-by-step reducer: it writes each normalisation and default into
  `action.payload`, as the source does, and is proved equal to `Reducer`.
- `config_properties.dfy`, module `ConfigProperties`: what a successful or
  failing `SET_SITE_CONFIG` guarantees, and how the state behaves over a run
  of dispatched actions.

The schema validator (Joi with `gatsbyConfigSchema`) is a parameter
`schema: Option<Payload> -> Validation` of every member that needs it, so
every result holds for any schema. `None` stands for an undefined state or
payload.

Points where the behaviour of the code is easy to misread, and which the
model follows exactly:

- Only an absent key is defaulted. `_.has` is true for a key whose value is
  `undefined`, so such a value stays `undefined` in the new state, although
  the comments at config.js:53-54 and 59-60 say the default is there to keep
  `pathPrefix` and `assetPath` from showing up as undefined.
  `ConfigProperties.PresentKeysNotDefaulted` states this.
- The `linkPrefix` rename hint is logged only when `linkPrefix` is truthy, not
  whenever the key is present.
- The reducer rewrites `action.payload` in place, so the action it was given
  is changed. `SiteConfig.Reduce` models that mutation of `action.payload`,
  but not its aliasing (see "Left out").
- With an undefined or null payload, the code behaves in two ways. If the
  schema accepts it, `_.set` creates the payload object, so the state holds
  just the three defaults. If the schema rejects it, reading `linkPrefix` from
  it throws a `TypeError` before any hint is logged (`NoPayload`).

## Model

| member | source | states |
|---|---|---|
| `Paths.EnsureStartsWithSlash` | packages/gatsby/src/redux/reducers/config.js:7-8 | The result starts with `/` and ends with the whole input, at most one character longer. It equals the input exactly when the input already starts with `/`. |
| `Paths.EnsureEndsWithNoSlash` | packages/gatsby/src/redux/reducers/config.js:9-10 | The result is a prefix of the input, at most one character shorter (exactly one `/` is stripped, so `a//` gives `a/`). It equals the input exactly when the input does not end with `/`. |
| `Paths.NormalizePath` | packages/gatsby/src/redux/reducers/config.js:34-50 | The start check, then the end strip, applied to `pathPrefix` or `assetPath`. The result is `""` or starts with `/`. Its value is `EnsureEndsWithNoSlash(EnsureStartsWithSlash(path))`, and the two helpers' contracts fix their results exactly. `Paths.NormalizeToEmpty`, `Paths.NormalizeShape`, `Paths.NormalizeFixedPoints` and `Paths.NormalizeIdempotentIff` state its shape. |
| `Paths.NormalizeToEmpty` | packages/gatsby/src/redux/reducers/config.js:7-10 | Start check, then end strip, gives `""` exactly for `""` and `/`. |
| `Paths.NormalizeShape` | packages/gatsby/src/redux/reducers/config.js:7-10 | Every other path comes out with a leading `/`. It keeps a trailing `/` exactly when the input ended with `//`. |
| `Paths.NormalizeFixedPoints` | packages/gatsby/src/redux/reducers/config.js:7-10 | A path is unchanged exactly when it is empty, or starts with `/` and does not end with `/`. |
| `Paths.NormalizeIdempotentIff` | packages/gatsby/src/redux/reducers/config.js:7-10 | Normalising twice equals normalising once exactly when the input does not end with `//`. |
| `Paths.NormalizeBareSegment` | packages/gatsby/src/redux/reducers/config.js:33-40 | For any segment with no slash at either end, `seg`, `seg/` and `/seg/` all normalise to `/seg`. |
| `Paths.NormalizeFooExamples` | packages/gatsby/src/redux/reducers/config.js:33-40 | `foo/`, `/foo/` and `foo` give `/foo`, and `/foo` is left as it is. |
| `Paths.NormalizeSingleStripExample` | packages/gatsby/src/redux/reducers/config.js:9-10 | `a//` loses one slash (`a/`). As a path it gives `/a/`, and only a second pass gives `/a`. |
| `SiteConfig.Truthy` | packages/gatsby/src/redux/reducers/config.js:25-44 | JavaScript truthiness, as used by the `linkPrefix`, `pathPrefix` and `assetPath` tests. A value is falsy exactly when it is `undefined`, `null`, `false`, `0` or `""`. |
| `SiteConfig.NormalizeField` | packages/gatsby/src/redux/reducers/config.js:33-51 | One normalisation block. A present key gets its expected value (`ExpectedPath`): the normalised path for a non-empty string, otherwise the value as it was. A payload without the key is unchanged. The rest is specified by `ConfigProperties.NormalizeFieldSpec`. |
| `SiteConfig.DefaultField` | packages/gatsby/src/redux/reducers/config.js:55-68 | One `_.has`/`_.set` pair. Afterwards the key is present. A payload that had the key is unchanged, and an absent key gets the default. The rest is specified by `ConfigProperties.DefaultFieldSpec`. |
| `SiteConfig.Canonicalize` | packages/gatsby/src/redux/reducers/config.js:31-72 | The whole successful `SET_SITE_CONFIG` path after validation. The result always carries `pathPrefix`, `assetPath` and `polyfill`. Every key's value is specified by `ConfigProperties.CanonicalizeSpec`. |
| `SiteConfig.Action.constructor` | packages/gatsby/src/redux/reducers/config.js:12-14 | The dispatched `action`: its `type` and the `payload` that the reducer later rewrites in place. |
| `SiteConfig.Reducer` | packages/gatsby/src/redux/reducers/config.js:12-77 | Failure exactly for `SET_SITE_CONFIG` with a payload the schema rejects. Any other action returns the state, or `{}` when the state is undefined. A successful `SET_SITE_CONFIG` has `pathPrefix`, `assetPath` and `polyfill`. |
| `SiteConfig.Reduce` | packages/gatsby/src/redux/reducers/config.js:12-77 | The step-by-step reducer returns what `Reducer` returns for the old payload. After a successful `SET_SITE_CONFIG`, `action.payload` holds the new state. Otherwise `action.payload` is unchanged. |
| `SiteConfig.NormalizePayloadPath` | packages/gatsby/src/redux/reducers/config.js:31-51 | One normalisation block leaves the payload equal to `NormalizeField` of the old payload. An undefined payload stays undefined. |
| `SiteConfig.DefaultPayloadKey` | packages/gatsby/src/redux/reducers/config.js:53-68 | One `_.has`/`_.set` pair leaves the payload equal to `DefaultField` of the old payload. An undefined payload counts as `{}`. |
| `ConfigProperties.NormalizeFieldSpec` | packages/gatsby/src/redux/reducers/config.js:31-51 | Normalising one key keeps the key set and every other key. The key gets its expected value: the normalised path for a non-empty string, otherwise the value unchanged. |
| `ConfigProperties.DefaultFieldSpec` | packages/gatsby/src/redux/reducers/config.js:53-68 | Defaulting adds exactly the key. It changes no present key, and an absent key gets the default. |
| `ConfigProperties.CanonicalizeSpec` | packages/gatsby/src/redux/reducers/config.js:31-72 | The new state has exactly the payload's keys plus the three guaranteed ones. Each path gets its expected value, `polyfill` is kept or set to `true`, and every other key keeps its value. |
| `ConfigProperties.PresentKeysNotDefaulted` | packages/gatsby/src/redux/reducers/config.js:53-68 | Defaults (`""`, `""`, `true`) apply only to absent keys. A present falsy path (`""`, `false`, `undefined`) stays as given, and so does a present `polyfill`, even `false`. |
| `ConfigProperties.PathKeysIndependent` | packages/gatsby/src/redux/reducers/config.js:31-51 | A path key's new value depends only on that same key in the payload, so the two paths are normalised independently. |
| `ConfigProperties.SegmentPathsCanonical` | packages/gatsby/src/redux/reducers/config.js:31-51 | Under either path key, `seg`, `seg/` and `/seg/` become `/seg`. |
| `ConfigProperties.LoneSlashCollapses` | packages/gatsby/src/redux/reducers/config.js:33-51 | A path of exactly `/` becomes `""`. |
| `ConfigProperties.PathStableIff` | packages/gatsby/src/redux/reducers/config.js:31-51 | A second pass leaves a path key unchanged exactly when its original value did not end with `//`. |
| `ConfigProperties.CanonicalizeIdempotentIff` | packages/gatsby/src/redux/reducers/config.js:31-72 | Running a produced configuration through the steps again changes nothing exactly when neither original path ended with `//`. |
| `ConfigProperties.InvalidPayloadRejected` | packages/gatsby/src/redux/reducers/config.js:16-28 | A payload the schema rejects yields a failure carrying the validator's detail. The rename hint is set exactly when `linkPrefix` is truthy. |
| `ConfigProperties.MissingPayload` | packages/gatsby/src/redux/reducers/config.js:16-68 | With no payload, an accepting schema yields exactly `{pathPrefix: "", assetPath: "", polyfill: true}`. A rejecting schema yields the `NoPayload` failure. |
| `ConfigProperties.LegacyLinkPrefixExample` | packages/gatsby/src/redux/reducers/config.js:12-72 | An accepted `{pathPrefix: "blog/", linkPrefix: x}`, with any bare segment in place of `blog`, gives `{pathPrefix: "/blog", assetPath: "", polyfill: true, linkPrefix: x}`. |
| `ConfigProperties.ConfiguredIsAbsorbing` | packages/gatsby/src/redux/reducers/config.js:12-77 | Consider a run of actions that succeeds and either starts configured or contains a `SET_SITE_CONFIG`. It ends with all three guaranteed keys, so there is no way back to the unconfigured state. |
| `ConfigProperties.OtherActionsKeepState` | packages/gatsby/src/redux/reducers/config.js:74-75 | A run of actions that are not `SET_SITE_CONFIG` leaves the state exactly as it was. |

## Left out

- Schema validation (Joi and `gatsbyConfigSchema`) is not modelled. The schema file is not part of this model, and the validator is an external library. Every member takes it as an arbitrary function from payload to verdict.
- Console output and `chalk` colouring are left out. Only whether the `linkPrefix` rename hint is logged is kept, as a flag in the failure.
- The exception is an explicit `Failure` result. There is no `Error` object and no unwinding.
- The Redux store is reduced to `ConfigProperties.Run`, a fold of the reducer over dispatched actions.
- Lodash internals (`_.has`, `_.set`, `_.startsWith`, `_.endsWith`) are modelled only by their effect on strings and on the payload map.
- `SiteConfig.NormalizeField`: a truthy non-string `pathPrefix` or `assetPath` (a number, `true`, an object) is left unchanged. The source would coerce it to a string, e.g. `5` to `/5`. The model handles string values only.
- A payload that is neither an object nor undefined/null, such as a bare string, is not modelled.
- Numbers are integers, so `NaN` and fractions are not modelled. Objects, arrays and functions are references (`Ref`), compared by identity, with their contents abstracted.
- Only own, enumerable keys are modelled. The spread `{...payload}` copies every key of the map.
- The payload object is a value held by `SiteConfig.Action`. In the source, the rewrites of `pathPrefix` and `assetPath` and the keys added by `_.set` are made on the object itself, so they are also visible through every other reference to it, such as the configuration object the caller dispatched. The model does not capture that aliasing: only `action.payload` changes.
