# Bottlerocket settings SDK: the settings-model core in Dafny

This project models the core of the Bottlerocket settings SDK
(`src/model/mod.rs`). A settings domain implements the `SettingsModel`
contract once per schema version: `get_version`, `set`, `generate` and
`validate`. Generation reports a `GenerateResult`. It is either
`NeedsData(partial?)`, which asks for another cycle, or `Complete(value)`.
The type-erasure layer ships that result as JSON through
`GenerateResult::serialize`. Failures are reported as a
`BottlerocketSettingError`, which always names the model version.

The source is pure, so the model is made of datatypes, functions and lemmas:

- `wrappers.dfy` (`Wrappers`): Rust's `Option`, `Result` (with `:-` playing
  the role of `?`) and `Ordering`. It also holds `Option::map`,
  `Option::transpose` and the derived order on `Option`.
- `json.dfy` (`Json`): `serde_json::Value` as an abstract tree, and
  `serde_json::Error` as an opaque value.
- `generate_result.dfy` (`GenerateResults`): the enum and `serialize`. It
  also holds the inverse over a payload decoder, the enum's externally
  tagged JSON form from `#[derive(Serialize, Deserialize)]`, and its derived
  `Ord`.
- `settings_model.dfy` (`Settings`): the `SettingsModel` contract and the
  `BottlerocketSetting` marker. Dafny traits are not used, so the contract is
  a record of functions `SettingsModel<V, P, E>`. `V` is the settings type,
  `P` its `PartialKind` and `E` its `ErrorKind`. `validate` returns
  `Result<bool, E>`, so a rejection (`Ok(false)`) and a fault (`Err`) are
  different values.
- `setting_error.dfy` (`SettingErrors`): the six error variants and the
  cause each one reports.
- `example.dfy` (`Example`): the documented example model `MySettings`
  (version "v1").

`serde_json::to_value` and `from_value` for a concrete Rust type are serde's
business. They appear as function parameters: `ToValue<T> = T -> Result<Json,
SerError>` and `FromValue<T>`.

`GenerateResult::serialize` returns the bare `serde_json::Error`
(src/model/mod.rs:158). Wrapping it into a `SerializeResult` error is done by
the `erased` module, which is not part of this model.

In `SettingErrors`, the boxed `source` field of `GenerateSetting`,
`SetSetting` and `ValidateSetting` is named `cause`. Dafny requires a field
name shared by several variants to have a single type, and the
(de)serialization variants' `source` is a `serde_json` error.

## Model

| member | source | states |
|---|---|---|
| `Wrappers.OptionMap` | src/model/mod.rs:162 | `Option::map`; together with `transpose`, its contract is stated by `Wrappers.MapThenTranspose` |
| `Wrappers.MapThenTranspose` | src/model/mod.rs:161-163 | `map(to_value)` then `transpose()` on the optional partial: `None` gives `Ok(None)`; a present value gives `Ok(Some(u))` exactly when the converter gives `Ok(u)`, and `Err(e)` exactly when it gives `Err(e)` |
| `Wrappers.Transpose` | src/model/mod.rs:161-163 | `Option::transpose`: `None` becomes `Ok(None)`, `Some(Ok(x))` becomes `Ok(Some(x))`, `Some(Err(e))` becomes `Err(e)`, each in both directions |
| `Wrappers.TransposeResult` | src/model/mod.rs:161-163 | `Result::transpose`, the reference inverse of `transpose`: `Ok(None)` gives `None`, `Ok(Some(x))` gives `Some(Ok(x))`, `Err(e)` gives `Some(Err(e))`, each in both directions |
| `Wrappers.TransposeIsBijective` | src/model/mod.rs:161-163 | `transpose` loses no information: `Result::transpose` undoes it, and the reverse holds too |
| `Wrappers.CompareOption` | src/model/mod.rs:144 | the derived `Ord` on the `Option` inside `NeedsData`: `None` equals `None`, `None` is before any `Some`, and two `Some` compare by payload |
| `Wrappers.CompareOptionIsTotal` | src/model/mod.rs:140-144 | the derived order on the `Option` inside `NeedsData` (`None` first) is a total order whenever the payload order is |
| `GenerateResults.Serialize` | src/model/mod.rs:156-169 | `serialize` keeps the variant and the presence of the partial; `NeedsData(None)` always succeeds; the result is an error exactly when the one payload present fails to convert |
| `GenerateResults.SerializeAbsentPartial` | src/model/mod.rs:160-164 | `NeedsData(None)` serializes to `Ok(NeedsData(None))` for every payload converter |
| `GenerateResults.SerializePartial` | src/model/mod.rs:160-164 | `NeedsData(Some(p))` gives `Ok(NeedsData(Some(j)))` exactly when `to_value(p) = Ok(j)`, and `Err(e)` exactly when `to_value(p) = Err(e)` |
| `GenerateResults.SerializeComplete` | src/model/mod.rs:165-167 | `Complete(c)` gives `Ok(Complete(j))` exactly when `to_value(c) = Ok(j)`, and otherwise that same error, never a partly built result |
| `GenerateResults.Deserialize` | src/model/mod.rs:140-148 | the derived `Deserialize` once the tag is read: the variant and the presence of the partial are kept, `NeedsData(None)` always succeeds, and the result is an error exactly when the payload present fails to decode |
| `GenerateResults.DeserializeAbsentPartial` | src/model/mod.rs:140-148 | `NeedsData(None)` deserializes to `Ok(NeedsData(None))` for every payload decoder |
| `GenerateResults.DeserializePartial` | src/model/mod.rs:140-148 | `NeedsData(Some(j))` gives `Ok(NeedsData(Some(v)))` exactly when `from_value(j) = Ok(v)`, and `Err(e)` exactly when `from_value(j) = Err(e)` |
| `GenerateResults.DeserializeComplete` | src/model/mod.rs:140-148 | `Complete(j)` gives `Ok(Complete(v))` exactly when `from_value(j) = Ok(v)`, and otherwise that same error |
| `GenerateResults.SerializeRoundTrip` | src/model/mod.rs:140-169 | when both payload codecs round-trip, every result that serializes deserializes back to itself |
| `GenerateResults.EncodeWire` | src/model/mod.rs:140-148 | the derived externally tagged JSON form: a one-entry object keyed by the variant name |
| `GenerateResults.DecodeWire` | src/model/mod.rs:140-148 | the derived decoding accepts only a one-entry object whose key is the variant it returns |
| `GenerateResults.DecodeThenEncode` | src/model/mod.rs:140-148 | re-encoding a decoded value gives back exactly the JSON that was decoded |
| `GenerateResults.EncodeThenDecode` | src/model/mod.rs:140-148 | decoding an encoded result gives it back, for every result other than a present `null` partial |
| `GenerateResults.NullPartialComesBackAbsent` | src/model/mod.rs:144 | `NeedsData(Some(null))` and `NeedsData(None)` have the same JSON, and it decodes as `NeedsData(None)` |
| `GenerateResults.WireRoundTrip` | src/model/mod.rs:140-169 | serialize, encode as JSON, decode and deserialize gives the result back when both payload codecs round-trip, unless the partial's JSON is `null` |
| `GenerateResults.Compare` | src/model/mod.rs:140-148 | the derived `Ord`: `NeedsData` is before `Complete`; two `NeedsData` compare by their optional partial, two `Complete` by their value |
| `GenerateResults.NeedsDataBeforeComplete` | src/model/mod.rs:140-148 | under the derived `Ord`, every `NeedsData(_)` orders before every `Complete(_)`, by declaration order |
| `GenerateResults.CompareIsTotal` | src/model/mod.rs:140-148 | the derived order on `GenerateResult` is a total order whenever the payload orders are |
| `Settings.SettingsModel` | src/model/mod.rs:64-103 | the trait as a record: a fixed version string, `set`, `generate` and `validate`, each returning a `Result` over the model's own error type, and the `Into<Box<dyn Error>>` conversion of that error; a datatype, whose example instance is pinned by the `Example` lemmas |
| `Settings.Model` | src/model/mod.rs:127-131 | `model()` builds the data-free marker; its contract is stated by `Settings.MarkersAreIndistinguishable` |
| `Settings.CompareMarkers` | src/model/mod.rs:120 | the derived `Ord` on the marker, which Rust provides whenever `T: Ord`; that it always answers `Equal` is stated by `Settings.MarkersAreIndistinguishable` |
| `Example.MySettingsModel` | src/model/mod.rs:33-58 | the example impl as a constant: version "v1", `set` returns the target, `generate` completes with the default, `validate` accepts; each stated by one `Example` lemma below |
| `Example.DefaultSettings` | src/model/mod.rs:25-29 | the derived `Default`: `{name: "", favorite_number: 0}`, as `Example.ExampleGenerateCompletes` states |
| `Settings.MarkersAreIndistinguishable` | src/model/mod.rs:120-131 | `BottlerocketSetting::<T>::model()` carries no data: any two markers are equal to each other and to `model()`, and, whenever `T: Ord`, they compare `Equal` under the derived `Ord` |
| `SettingErrors.Source` | src/model/mod.rs:180-242 | the three (de)serialization variants report their `serde_json` error as the cause; the generate, set and validate variants report the boxed domain error |
| `SettingErrors.VariantsKeepContext` | src/model/mod.rs:188-241 | every variant keeps the version it was built with; `SerializeResult` also keeps the operation name, and `DeserializeInput` the offending input |
| `Example.ExampleVersion` | src/model/mod.rs:37-39 | the example model's version is "v1" |
| `Example.ExampleSetStoresTarget` | src/model/mod.rs:41-44 | `set(current, target)` is `Ok(target)` whatever `current` is |
| `Example.ExampleGenerateCompletes` | src/model/mod.rs:46-52 | `generate` returns `Ok(Complete({name: "", favorite_number: 0}))` on all inputs |
| `Example.ExampleValidateAccepts` | src/model/mod.rs:54-57 | `validate` returns `Ok(true)` on all inputs |
| `Example.ExampleGenerateSerializes` | src/model/mod.rs:46-52 | the generated result serializes to `Complete` of the default's JSON, or fails with exactly the converter's error |

## Left out

- `bottlerocket-settings-models/settings-extensions/kubernetes/src/main.rs`: it only initialises logging, builds the extension and maps the outcome to an exit code, which is I/O and wiring.
- The `erased` module (the type-erasure bridge), the migrators and the extension builder are not part of this model. `erased` is where the `SettingsModel` operations are called through JSON and their errors wrapped into `BottlerocketSettingError`.
- The internals of `serde_json` are not modelled. `to_value` and `from_value` are function parameters. The error messages `DecodeWire` attaches are placeholders for serde's own.
- JSON numbers are integers only. Floating-point numbers are not modelled.
- The `Display` messages of `BottlerocketSettingError` are not modelled. They are string formatting over library calls.
- `Send`, `Sync`, `'static`, `PhantomData` and `Box` are Rust type-system and ownership markers. Boxed domain errors are kept as a description string (`BoxedError`), and the cause chain behind them is not modelled.
- The trait bounds `Serialize + DeserializeOwned + Debug` on a model are not modelled. They become the converter parameters.
