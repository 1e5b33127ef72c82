/**
 * `BottlerocketSettingError`, the error returned when a user-defined
 * settings model is driven through the SDK. Every variant names the version
 * of the model that failed; the cause is either a `serde_json` error (for
 * (de)serialization and parsing) or the model's own error, boxed so that its
 * concrete type is erased.
 */
module SettingErrors {
  import opened Json

  /** `Box<dyn std::error::Error + Send + Sync>`: an erased domain error, kept by its description. */
  datatype BoxedError = BoxedError(description: string)

  /**
   * The six variants, in declaration order. Format causes are held in
   * `source`, boxed domain causes in `cause`; every variant has `version`.
   */
  datatype BottlerocketSettingError =
    | DeserializeInput(inputType: string, input: Json, version: string, source: SerError)
    | GenerateSetting(version: string, cause: BoxedError)
    | ParseSetting(version: string, source: SerError)
    | SerializeResult(version: string, operation: string, source: SerError)
    | SetSetting(version: string, cause: BoxedError)
    | ValidateSetting(version: string, cause: BoxedError)

  /** The underlying cause of an error, as `std::error::Error::source` reports it. */
  datatype ErrorSource = FormatCause(format: SerError) | DomainCause(domain: BoxedError)

  /**
   * The cause each variant carries: a format error for the three
   * (de)serialization variants, the boxed domain error for the three
   * operation variants.
   */
  function Source(e: BottlerocketSettingError): (r: ErrorSource)
    ensures r.FormatCause? <==> (e.DeserializeInput? || e.ParseSetting? || e.SerializeResult?)
    ensures r.DomainCause? <==> (e.GenerateSetting? || e.SetSetting? || e.ValidateSetting?)
    ensures r.FormatCause? ==> r.format == e.source
    ensures r.DomainCause? ==> r.domain == e.cause
  {
    match e
    case DeserializeInput(_, _, _, s) => FormatCause(s)
    case ParseSetting(_, s) => FormatCause(s)
    case SerializeResult(_, _, s) => FormatCause(s)
    case GenerateSetting(_, c) => DomainCause(c)
    case SetSetting(_, c) => DomainCause(c)
    case ValidateSetting(_, c) => DomainCause(c)
  }

  /**
   * Building any variant from a version keeps that version, and the
   * serialize variant also keeps the operation name; the offending input
   * stays attached to a deserialize failure.
   */
  lemma VariantsKeepContext(inputType: string, input: Json, version: string, operation: string,
                            s: SerError, c: BoxedError)
    ensures DeserializeInput(inputType, input, version, s).version == version
    ensures DeserializeInput(inputType, input, version, s).input == input
    ensures GenerateSetting(version, c).version == version
    ensures ParseSetting(version, s).version == version
    ensures SerializeResult(version, operation, s).version == version
    ensures SerializeResult(version, operation, s).operation == operation
    ensures SetSetting(version, c).version == version
    ensures ValidateSetting(version, c).version == version
  {
  }
}
