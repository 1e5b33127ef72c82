/**
 * The `SettingsModel` contract that every settings domain implements, one
 * implementation per schema version, and the `BottlerocketSetting` marker
 * that hands a model to the extension builder.
 *
 * A Rust trait with associated types becomes a record of functions: `V` is
 * the implementing type (the settings value), `P` its `PartialKind` and `E`
 * its `ErrorKind`.
 */
module Settings {
  import opened Wrappers
  import opened Json
  import opened GenerateResults
  import opened SettingErrors

  /**
   * `version` is `get_version()`, fixed for the type. `setValue` is `set`:
   * from the stored value (absent if never set) and the proposed one, the
   * value to store or a domain error. `generate` takes the partial from the
   * previous cycle and the dependencies' values so far. `validate` answers
   * `Ok(false)` for a rejected value and `Err` for a fault. `intoBoxed` is
   * the `ErrorKind: Into<Box<dyn Error>>` bound.
   */
  datatype SettingsModel<!V, !P, !E> = SettingsModel(
    version: string,
    setValue: (Option<V>, V) -> Result<V, E>,
    generate: (Option<P>, Option<Json>) -> Result<GenerateResult<P, V>, E>,
    validate: (V, Option<Json>) -> Result<bool, E>,
    intoBoxed: E -> BoxedError)

  /** `BottlerocketSetting<T>`: a data-free marker naming the model type `T`. */
  datatype BottlerocketSetting<T> = BottlerocketSetting

  /** `BottlerocketSetting::<T>::model()`. */
  function Model<T>(): (m: BottlerocketSetting<T>)
  {
    BottlerocketSetting
  }

  /**
   * The derived `Ord` on the marker, which Rust provides whenever `T: Ord`:
   * it has no fields to compare.
   */
  function CompareMarkers<T>(a: BottlerocketSetting<T>, b: BottlerocketSetting<T>): (r: Ordering)
  {
    Equal
  }

  /**
   * Any two markers of one model type are equal, and `model()` gives that
   * one value; where `T: Ord`, the derived order calls them `Equal`.
   */
  lemma MarkersAreIndistinguishable<T>(a: BottlerocketSetting<T>, b: BottlerocketSetting<T>)
    ensures a == b && a == Model<T>()
    ensures CompareMarkers(a, b) == Equal
  {
  }
}
