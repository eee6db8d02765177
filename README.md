# lbDate configuration engine — a Dafny model

lbDate lets an application configure how `Date` values are serialised to JSON: the timezone mode
(`auto`, `manual` or `utc`), a manual UTC offset in minutes, the number of fractional-second digits,
and the name under which the native `toJSON` is kept once lbDate has replaced it. This project
models the configuration side of the library:

- validating partial options and merging them onto a base configuration, field by field;
- the default configuration;
- the global store behind `init()`, `getGlobalConfig()` and `restore()`;
- the playground helpers `isNullable`, `isMethodInDatesPrototype` and `getCurrentToJsonMethodName`.

The library's own implementation is not part of this model. Its behaviour is taken from its Jest
tests and from the playground code that calls it.

Modules:

- `Wrappers` (wrappers.dfy): `Option` and `Nullable`. `Nullable` is a key that is absent, explicitly `null`, or holds a value.
- `Numeric` (numeric.dfy): rounding and clamping on exact reals.
- `LbDateConfig` (config.dfy): `TimeZone`, the complete `Config` record, the partial `LbDateOptions` object, the default configuration, and the conversion of a configuration into an options object.
- `Merging` (merge.dfy): the per-field validators, `Merge`, and the lemmas about them.
- `GlobalConfig` (store.dfy): the store state, the `GlobalStore` class, and the lemmas about successive `init` calls.
- `PlaygroundHelpers` (helpers.dfy): the playground helpers.
- `GlobalConfigSpec` and `DefaultConfigSpec` (scenarios.dfy): one method per test case. Each starts from a fresh store, because every test re-imports the module.
- `PlaygroundUsage` (scenarios.dfy): the playground's restore-then-init sequence. No test asserts it.

Modelling decisions:

- **Rounding.** Numbers are exact reals. A value halfway between two integers rounds to the larger one, `floor(x + 1/2)`, as JavaScript's `Math.round` does. The tests use no halfway value, so this rule is a choice.
- **Offset.** An absent `manualTimeZoneOffset` keeps the base value. An explicit `null` sets the offset to `null`. A number is rounded and clamped into [-840, 840], whatever the timezone mode.
- **Precision.** A precision is rounded and clamped into [0, 3].
- **Timezone.** A `timezone` that is not one of the strings `"auto"`, `"manual"` and `"utc"` is dropped. These are taken to be the values of the `TimeZoneOptions` enum.
- **Native name.** A `toNativeJsonName` the Date prototype already has (`toISOString`) is dropped, and an unused one (`anotherToNativeJSON`) is accepted (spec/lb-date-api/get-global-config.spec.ts:121-133, 33-48). The prototype is a set of names passed to each merge.
- **The store.** `GlobalStore` holds a single state, `Uninitialized` or `Initialized(config)`. `init` merges onto the default configuration before the first call and onto the stored configuration afterwards. `getGlobalConfig()` returns `{}` before the first call. Every stored configuration is in range: this is `Valid()`, which every method keeps.
- **Restore.** `restore()` resetting the store to `Uninitialized` is inferred from the playground, which calls `restore()` before every new `init(options)` (www/app.component.ts:40-41). No test asserts what `restore()` does.

## Model

| member | source | states |
|---|---|---|
| `Numeric.Round` | spec/lb-date-api/get-global-config.spec.ts:155-182 | the result is the integer within half a unit of the input (halves go up) |
| `Numeric.RoundIsNearest` | spec/lb-date-api/get-global-config.spec.ts:155-182 | no integer is closer to the input than its rounding |
| `Numeric.RoundOfInteger` | spec/lb-date-api/get-global-config.spec.ts:33-48 | an integral value is unchanged by rounding |
| `Numeric.Clamp` | spec/lb-date-api/get-global-config.spec.ts:101-153 | the result lies in the range, equals the input inside it, and equals the nearer bound outside it |
| `Numeric.RoundAndClamp` | spec/lb-date-api/get-global-config.spec.ts:101-182 | in range the result is the rounded input; at or beyond a bound it is that bound |
| `Numeric.RoundAndClampOfInteger` | spec/lb-date-api/get-global-config.spec.ts:33-48 | an integer already in range is unchanged |
| `LbDateConfig.ParseTimeZone` | spec/lb-date-api/get-global-config.spec.ts:87-99 | a parsed timezone has exactly the given string as its name; a string that is no timezone's name is rejected |
| `LbDateConfig.ParseTimeZoneName` | spec/lb-date-api/get-global-config.spec.ts:33-85 | every timezone's name parses back to that timezone |
| `LbDateConfig.GetDefaultConfig` | spec/get-default-config.spec.ts:6-13 | the default is `auto`, offset `null`, name `'toNativeJSON'`, precision 3, and it is in range |
| `LbDateConfig.ToOptions` | spec/lb-date-api/get-global-config.spec.ts:40-47 | a configuration becomes an options object with all four keys, carrying each field's value |
| `Merging.MergeTimeZone` | spec/lb-date-api/get-global-config.spec.ts:87-99 | a valid timezone string is taken; an absent or invalid one keeps the base |
| `Merging.NormalizeOffset` | spec/lb-date-api/get-global-config.spec.ts:101-119 | the offset is in [-840, 840]: rounded inside it, the bound at or beyond it |
| `Merging.NormalizePrecision` | spec/lb-date-api/get-global-config.spec.ts:135-167 | the precision is in [0, 3]: rounded inside it, the bound at or beyond it |
| `Merging.MergeOffset` | spec/lb-date-api/get-global-config.spec.ts:101-119 | an absent offset keeps the base, `null` unsets it, a number is normalised |
| `Merging.MergeName` | spec/lb-date-api/get-global-config.spec.ts:121-133 | a name not on the prototype is taken; an absent name or one on the prototype keeps the base |
| `Merging.MergePrecision` | spec/lb-date-api/get-global-config.spec.ts:135-167 | an absent precision keeps the base, a number is normalised |
| `Merging.Merge` | spec/lb-date-api/get-global-config.spec.ts:87-182 | merging keeps an in-range base in range; empty options leave the base unchanged; the resulting name is the base's or is not on the prototype |
| `Merging.MergeCompleteOptions` | spec/lb-date-api/get-global-config.spec.ts:33-48 | complete, in-range options whose name is free are stored verbatim, including offset 840 and precision 0 |
| `Merging.MergeDropsInvalidTimeZone` | spec/lb-date-api/get-global-config.spec.ts:87-99 | an invalid timezone string changes no field; the base timezone is kept |
| `Merging.MergeClampsOffset` | spec/lb-date-api/get-global-config.spec.ts:101-119 | an offset at or beyond ±840 becomes that bound, and every other field is as without the offset |
| `Merging.MergeDropsPrototypeName` | spec/lb-date-api/get-global-config.spec.ts:121-133 | a name already on the prototype changes no field; the base name is kept |
| `Merging.MergeTakesUnusedName` | spec/lb-date-api/get-global-config.spec.ts:33-48 | a name not on the prototype is taken |
| `Merging.MergeClampsPrecision` | spec/lb-date-api/get-global-config.spec.ts:135-153 | a precision at or beyond 0 or 3 becomes that bound, and every other field is as without the precision |
| `Merging.MergeRoundsOffsetToNearest` | spec/lb-date-api/get-global-config.spec.ts:169-182 | a given in-range offset is stored as the nearest integer to it, whatever else is given |
| `Merging.MergeRoundsPrecisionToNearest` | spec/lb-date-api/get-global-config.spec.ts:155-167 | a given in-range precision is stored as the nearest integer to it, whatever else is given |
| `Merging.MergeComposes` | spec/lb-date-api/get-global-config.spec.ts:50-85 | two successive merges equal one merge of the options where every valid field of the later call overrides the earlier one |
| `GlobalConfig.BaseOf` | spec/lb-date-api/get-global-config.spec.ts:21-31 | `init` merges onto the default before the first call and onto the stored configuration afterwards |
| `GlobalConfig.InitState` | spec/lb-date-api/get-global-config.spec.ts:50-85 | after `init` the store is initialised with the merge onto its base, and it stays in range |
| `GlobalConfig.InitSequenceValid` | spec/lb-date-api/get-global-config.spec.ts:50-119 | after any number of `init` calls the stored configuration is in range |
| `GlobalConfig.InitSequenceFromMerged` | spec/lb-date-api/get-global-config.spec.ts:50-85 | further `init` calls after a merge act as one merge of the overridden options |
| `GlobalConfig.InitSequenceComposes` | spec/lb-date-api/get-global-config.spec.ts:50-85 | any non-empty sequence of `init` calls stores what one `init` of their field-by-field overridden options stores |
| `GlobalConfig.GlobalStore.constructor` | spec/lb-date-api/get-global-config.spec.ts:7-9 | a freshly imported store is uninitialised |
| `GlobalConfig.GlobalStore.Init` | spec/lb-date-api/get-global-config.spec.ts:21-85 | the store now holds the options merged onto its previous base, and stays valid |
| `GlobalConfig.GlobalStore.Restore` | www/app.component.ts:40-41 | the store is uninitialised again (inferred from this usage; no test asserts it) |
| `GlobalConfig.GlobalStore.GetGlobalConfig` | spec/lb-date-api/get-global-config.spec.ts:11-31 | the result is `{}` exactly when uninitialised, and the stored configuration with all four keys otherwise |
| `PlaygroundHelpers.IsNullable` | playground/ts/utils/helpers.ts:3-5 | holds exactly of `null` and `undefined` |
| `PlaygroundHelpers.KeyValue` | playground/ts/utils/helpers.ts:14 | a missing key reads as `undefined` (nullish), a present one as its string |
| `PlaygroundHelpers.NullishCoalesce` | playground/ts/utils/helpers.ts:14 | `??` gives the left side unless it is nullish; a non-nullish right side makes the result non-nullish |
| `PlaygroundHelpers.IsMethodInDatesPrototype` | playground/ts/utils/helpers.ts:17-19 | holds exactly when the prototype has an entry under the name |
| `PlaygroundHelpers.MergeDropsNameIffOnPrototype` | playground/ts/utils/helpers.ts:17-19 | a new name is dropped by the merge if and only if it is a prototype method |
| `PlaygroundHelpers.GetCurrentToJsonMethodName` | playground/ts/utils/helpers.ts:13-15 | the stored name when initialised, `'toNativeJSON'` otherwise; never nullish |
| `GlobalConfigSpec.EmptyBeforeInit` | spec/lb-date-api/get-global-config.spec.ts:11-19 | both reads before `init` give `{}` |
| `GlobalConfigSpec.InitWithoutOptions` | spec/lb-date-api/get-global-config.spec.ts:21-31 | `init()` stores the default configuration |
| `GlobalConfigSpec.InitWithValidOptions` | spec/lb-date-api/get-global-config.spec.ts:33-48 | `manual`, 840, `'anotherToNativeJSON'`, 0 are stored as given |
| `GlobalConfigSpec.SuccessiveInitsMerge` | spec/lb-date-api/get-global-config.spec.ts:50-85 | the three reads give the three expected merged configurations |
| `GlobalConfigSpec.InvalidTimeZoneDropped` | spec/lb-date-api/get-global-config.spec.ts:87-99 | timezone `'Test'` leaves the default configuration |
| `GlobalConfigSpec.OffsetClamped` | spec/lb-date-api/get-global-config.spec.ts:101-119 | 841 is stored as 840, then -841 as -840, timezone staying `auto` |
| `GlobalConfigSpec.PrototypeNameDropped` | spec/lb-date-api/get-global-config.spec.ts:121-133 | `toISOString` leaves the name `'toNativeJSON'` |
| `GlobalConfigSpec.PrecisionClamped` | spec/lb-date-api/get-global-config.spec.ts:135-153 | 4 is stored as 3, then -1 as 0 |
| `GlobalConfigSpec.PrecisionRounded` | spec/lb-date-api/get-global-config.spec.ts:155-167 | precision 2.1 is stored as 2 |
| `GlobalConfigSpec.OffsetRounded` | spec/lb-date-api/get-global-config.spec.ts:169-182 | offset 120.1 is stored as 120 with timezone `manual` |
| `PlaygroundUsage.ReinitializeAfterRestore` | www/app.component.ts:39-42 | with `restore()` taken to reset the store, the next `init` merges onto the default, not onto the earlier configuration |
| `DefaultConfigSpec.DefaultConfigLiteral` | spec/get-default-config.spec.ts:5-14 | `getDefaultConfig()` equals the four-key default literal |

## Left out

- Installing lbDate's `toJSON` on `Date.prototype` and keeping the native one under `toNativeJsonName`: the implementation is not part of this model. The prototype is therefore a parameter of every merge. The store does not add the alias to it.
- The JSON output itself (timezone shift, fractional-second digits): the implementation is not part of this model, and the tests shown assert nothing about it.
- `run` (scoped configuration) and its nesting and restore bracket: these appear only as usages, at www/main.ts:8-10 and www/app.component.ts:48-57.
- `restore()` undoing the prototype patch: `Restore` only resets the store.
- `runAsync` (playground/ts/utils/helpers.ts:7-11): event-loop scheduling.
- The playground UI and observables (www/app.component.ts) and the console demo (www/main.ts): wiring with no configuration logic of their own.
- The banner build tool (tools/handlers/banner.handler.ts): file-system rewriting that depends on helpers that are not part of this model.
- The logger settings (tools/configs/logger-config.ts): a data literal.
- JavaScript floating point (NaN, infinities, binary fractions): numbers are exact reals.
- `null` or non-numeric values for `timezone`, `toNativeJsonName` or `precision`: these fields are modelled as absent or of their declared type.
- The tests' dynamic re-import of the module: each scenario builds a fresh `GlobalStore` instead.
- `GlobalConfig.InitSequenceComposes`: it is stated for successive calls against one unchanged prototype. A prototype that changes between calls is not covered.
