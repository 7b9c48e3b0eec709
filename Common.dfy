/** Small shared vocabulary: Kotlin's nullable values, operations that may throw,
    and Kotlin's `toString()` on a nullable string. */
module Common {

  /** A Kotlin nullable value `T?`. */
  datatype Option<+T> = None | Some(value: T)

  /** The outcome of a step that may throw an exception (a session read, a
      network call, a database transaction). */
  datatype Attempt<+T> = Done(value: T) | Failed

  /** `s.toString()` on a Kotlin `String?`: the string itself, or the four
      characters "null" when it is absent. */
  function NullableText(s: Option<string>): (r: string)
    ensures s.Some? ==> r == s.value
    ensures s.None? ==> r == "null"
  {
    match s
    case Some(v) => v
    case None => "null"
  }
}
