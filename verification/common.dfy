/** Types shared by the three components: Go's int64, optional values,
    results, and Go's `error` values as far as the components build or
    compare them. */
module Common {

  const MinInt64: int := -0x8000_0000_0000_0000
  const MaxInt64: int := 0x7FFF_FFFF_FFFF_FFFF
  const MaxUint64: int := 0xFFFF_FFFF_FFFF_FFFF

  /** Go's int64. */
  type int64 = x: int | MinInt64 <= x <= MaxInt64

  datatype Option<+T> = None | Some(value: T)

  datatype Result<+T, +E> = Success(value: T) | Failure(error: E)

  /** The two reasons strconv gives for rejecting a number. */
  datatype NumErrorKind = ErrSyntax | ErrRange

  /** Go `error` values. `Message` is an error made by `errors.New` or
      `fmt.Errorf` without a cause; `Wrapped` is a message text
      followed by a cause, as `fmt.Errorf` with `%w` builds it;
      `NumError` is strconv's `*NumError`; `External` is an error produced by a
      collaborator the model does not look into (a database, a plugin, a
      decryption service), identified only by a code. */
  datatype Error =
    | Message(text: string)
    | Wrapped(text: string, cause: Error)
    | NumError(func: string, num: string, kind: NumErrorKind)
    | External(code: nat)
}
