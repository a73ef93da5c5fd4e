/**
 * The kinds of value the SDK stores in its key-value containers (the app-context map,
 * shared preferences, intent extras, content values) and the exceptions it raises.
 */
module Values {
  import opened Wrappers
  import opened JvmText

  /**
   * The protocol version, a Kotlin `Double` in the source. Only three numbers ever occur:
   * 0.0 (the getter's default), 1.0 (legacy protocol) and 3.0 (current protocol).
   */
  datatype ProtocolVersion = Unversioned | Legacy | Current

  datatype Value =
    | StrV(s: string)
    | IntV(i: int32)
    | LongV(l: int64)
    | BoolV(b: bool)
    | DoubleV(d: ProtocolVersion)
    | BytesV(bytes: seq<int8>)

  /** The exceptions raised on the modelled paths. */
  datatype Error =
    | InvalidParameter(message: string)   // java.security.InvalidParameterException
    | IllegalArgument(message: string)    // IllegalArgumentException
    | NumberFormat(text: string)          // NumberFormatException from toInt/toLong/toDouble
    | NullValue(key: string)              // a null cast to a non-null type
    | ClassCast(key: string)              // a value of another kind cast to ByteArray
    | NullAuthority                       // `uri.authority!!` on a URI without authority

  function VersionText(v: ProtocolVersion): string
  {
    match v
    case Unversioned => "0.0"
    case Legacy => "1.0"
    case Current => "3.0"
  }

  /** `Double.toString()` read back by `toDouble()`, for the three versions of the model. */
  function ParseVersion(s: string): Option<ProtocolVersion>
  {
    if s == "0.0" then Some(Unversioned)
    else if s == "1.0" then Some(Legacy)
    else if s == "3.0" then Some(Current)
    else None
  }

  /**
   * `Any.toString()` of a stored value. A byte array renders as the JVM's "[B@" followed
   * by an identity hash, which the model leaves out.
   */
  function ToText(v: Value): string
  {
    match v
    case StrV(s) => s
    case IntV(i) => DecimalText(i as int)
    case LongV(l) => DecimalText(l as int)
    case BoolV(b) => if b then "true" else "false"
    case DoubleV(d) => VersionText(d)
    case BytesV(_) => "[B@"
  }

  lemma VersionRoundTrip(v: ProtocolVersion)
    ensures ParseVersion(VersionText(v)) == Some(v)
  {
  }
}
