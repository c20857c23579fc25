/** Kotlin/JVM value types the app relies on: bytes, fixed-width integers,
    nullable values, exceptions and kotlin.Result. */
module Kotlin {

  /** A JVM byte as stored in a ByteArray, read as unsigned. */
  newtype byte = b: int | 0 <= b < 0x100

  /** A JVM Int (32-bit, two's complement). */
  type Int32 = x: int | -0x8000_0000 <= x < 0x8000_0000

  /** A JVM Long (64-bit, two's complement). */
  type Int64 = x: int | -0x8000_0000_0000_0000 <= x < 0x8000_0000_0000_0000

  /** A ByteArray's contents: its length is a non-negative Int. */
  type Bytes = s: seq<byte> | |s| < 0x8000_0000

  /** Kotlin's nullable `T?`. */
  datatype Option<+T> = None | Some(value: T) {
    /** The elvis operator `this ?: default`. */
    function GetOr(default: T): T {
      match this
      case Some(v) => v
      case None => default
    }
  }

  /** A thrown exception, of which the model keeps only the nullable message. */
  datatype Exception = Exception(message: Option<string>)

  /** kotlin.Result<T>. */
  datatype Result<+T> = Success(value: T) | Failure(error: Exception)

  /** `e.message ?: default`, as used to build error events and error states. */
  function MessageOr(e: Exception, default: string): (m: string)
    ensures e.message.Some? ==> m == e.message.value
    ensures e.message.None? ==> m == default
  {
    e.message.GetOr(default)
  }

  /** `result.exceptionOrNull()?.message ?: default`. */
  function FailureMessageOr<T>(r: Result<T>, default: string): (m: string)
    ensures r.Failure? && r.error.message.Some? ==> m == r.error.message.value
    ensures r.Success? || r.error.message.None? ==> m == default
  {
    match r
    case Success(_) => default
    case Failure(e) => MessageOr(e, default)
  }

  /** One byte per character, its low eight bits: for ASCII text this is
      what `String.toByteArray()` (UTF-8) produces. */
  function AsciiBytes(s: string): (r: seq<byte>)
    ensures |r| == |s|
    ensures forall i :: 0 <= i < |s| && s[i] as int < 0x80 ==> r[i] as int == s[i] as int
  {
    seq(|s|, i requires 0 <= i < |s| => (s[i] as int % 0x100) as byte)
  }
}
