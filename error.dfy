/** The error taxonomy of the binding (src/error.rs). */
module Errors {
  import opened Prelude

  /** A negative return code of a libsensors call, kept verbatim. */
  datatype SensorsError = SensorsError(code: Int32)

  /** `libloading::Error`, reduced to what could not be resolved. */
  datatype LoadError = LibraryNotFound(file: string) | SymbolNotFound(symbol: string)

  /** `std::str::Utf8Error`: the length of the longest well-formed prefix. */
  datatype Utf8Error = Utf8Error(validUpTo: nat)

  /** The crate's `Error`. `Utf8` is the variant the conversion in `get_label` needs; error.rs itself has no
      `From<Utf8Error>`. */
  datatype Error =
    | Sensors(sensors: SensorsError)
    | Loading(loading: LoadError)
    | UnexpectedWildcard(value: Int64)
    | Utf8(utf8: Utf8Error)

  /** `SensorsError::convert_cint`: negative codes are errors, everything else (zero included) a count. */
  function ConvertCint(code: Int32): (r: Result<Uint32, SensorsError>)
    ensures r.Err? <==> code < 0
    ensures r.Err? ==> r.error.code == code
    ensures r.Ok? ==> r.value == code
  {
    if code < 0 then Err(SensorsError(code)) else Ok(code)
  }

  /** The C return code a converted result stands for: the inverse of `ConvertCint`. */
  function ToCint(r: Result<Uint32, SensorsError>): int
  {
    match r
    case Ok(count) => count
    case Err(e) => e.code
  }

  /** `convert_cint` loses nothing: the code can be read back from its result. */
  lemma ConvertCintLossless(code: Int32)
    ensures ToCint(ConvertCint(code)) == code
    ensures ConvertCint(code) == Ok(0) <==> code == 0
  {
  }

  /** The native code an error carries, if it is a native error. */
  function NativeCode(e: Error): Option<Int32>
  {
    if e.Sensors? then Some(e.sensors.code) else None
  }

  /** `From<SensorsError> for Error` */
  function FromSensors(e: SensorsError): (r: Error)
    ensures r.Sensors? && NativeCode(r) == Some(e.code)
  {
    Sensors(e)
  }

  /** `From<libloading::Error> for Error` */
  function FromLoading(e: LoadError): (r: Error)
    ensures r.Loading? && r.loading == e
    ensures !r.Sensors? && !r.UnexpectedWildcard? && NativeCode(r) == None
  {
    Loading(e)
  }

  /** The two conversions never produce the same error, and each is injective. */
  lemma FromConversionsDistinct(s: SensorsError, s': SensorsError, l: LoadError, l': LoadError)
    ensures FromSensors(s) != FromLoading(l)
    ensures FromSensors(s) == FromSensors(s') ==> s == s'
    ensures FromLoading(l) == FromLoading(l') ==> l == l'
  {
  }
}
