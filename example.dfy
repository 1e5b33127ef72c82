/**
 * The example model from the documentation of `SettingsModel`: a name and
 * a favourite number, version "v1", whose partial kind is the settings
 * type itself and whose error kind is `anyhow::Error`.
 */
module Example {
  import opened Wrappers
  import opened Json
  import opened GenerateResults
  import opened SettingErrors
  import opened Settings

  newtype i64 = x: int | -0x8000_0000_0000_0000 <= x < 0x8000_0000_0000_0000

  datatype MySettings = MySettings(name: string, favoriteNumber: i64)

  /** `anyhow::Error`, kept opaque. */
  datatype AnyhowError = AnyhowError(message: string)

  /** `MySettings::default()`, derived: the empty string and zero. */
  const DefaultSettings: MySettings := MySettings("", 0)

  const MySettingsModel: SettingsModel<MySettings, MySettings, AnyhowError> :=
    SettingsModel(
      "v1",
      (current: Option<MySettings>, target: MySettings) => Ok(target),
      (partial: Option<MySettings>, dependencies: Option<Json>) => Ok(Complete(DefaultSettings)),
      (value: MySettings, validated: Option<Json>) => Ok(true),
      (e: AnyhowError) => BoxedError(e.message))

  lemma ExampleVersion()
    ensures MySettingsModel.version == "v1"
  {
  }

  /** `set` stores the proposed value, whatever is stored now. */
  lemma ExampleSetStoresTarget(current: Option<MySettings>, target: MySettings)
    ensures MySettingsModel.setValue(current, target) == Ok(target)
  {
  }

  /** `generate` completes at once with the default value, whatever it is given. */
  lemma ExampleGenerateCompletes(partial: Option<MySettings>, dependencies: Option<Json>)
    ensures MySettingsModel.generate(partial, dependencies) == Ok(Complete(MySettings("", 0)))
  {
  }

  /** `validate` accepts every value. */
  lemma ExampleValidateAccepts(value: MySettings, validated: Option<Json>)
    ensures MySettingsModel.validate(value, validated) == Ok(true)
  {
  }

  /**
   * The generated result serializes to `Complete` of the default's JSON, or
   * fails with exactly the error the value's converter reports.
   */
  lemma ExampleGenerateSerializes(partial: Option<MySettings>, dependencies: Option<Json>,
                                  to: ToValue<MySettings>)
    ensures var r := Serialize(MySettingsModel.generate(partial, dependencies).value, to, to);
            match to(DefaultSettings)
            case Ok(j) => r == Ok(Complete(j))
            case Err(e) => r == Err(e)
  {
  }
}
