/** ResultFactories.cs: the static `Ok`/`Err` factories, with `string` errors
    or with a generic error type; each delegates to the struct's factory. */
module ResultFactories {
  import opened Runtime
  import Options
  import opened Results
  import ResultExtensions

  /** `Ok<T>(value)`: `Result<T, string>.Ok(value)`. */
  function StringOk<T>(value: T): Result<T, CsString> {
    Results.Ok(StringType(), value)
  }

  /** `Err<T>(string error)`: `Result<T, string>.Err(error)`. */
  function StringErr<T>(tyT: CsType<T>, error: CsString): Result<T, CsString> {
    Results.Err(tyT, error)
  }

  /** `Ok<T, E>(value)`: `Result<T, E>.Ok(value)`. */
  function GenericOk<T, E>(tyE: CsType<E>, value: T): Result<T, E> {
    Results.Ok(tyE, value)
  }

  /** `Err<T, E>(error)`: `Result<T, E>.Err(error)`. */
  function GenericErr<T, E>(tyT: CsType<T>, error: E): Result<T, E> {
    Results.Err(tyT, error)
  }

  /** The string-error factories build the same structs as `Result<T, string>`'s
      own `Ok` and `Err`: tag, payload and the default of the other slot. */
  lemma StringFactoriesAreStructFactories<T>(tyT: CsType<T>, v: T, s: CsString)
    ensures StringOk(v) == Results.Ok(StringType(), v) == Result(true, v, Null)
    ensures StringErr(tyT, s) == Results.Err(tyT, s) == Result(false, tyT.defaultValue, s)
  {
  }

  /** The generic factories delegate to the struct's factories. */
  lemma GenericFactoriesDelegate<T, E>(tyT: CsType<T>, tyE: CsType<E>, v: T, e: E)
    ensures GenericOk(tyE, v) == Results.Ok(tyE, v)
    ensures GenericErr(tyT, e) == Results.Err(tyT, e)
    ensures StringOk(v) == GenericOk(StringType(), v)
  {
  }

  /** A factory-built `Ok` is `IsOk`, a factory-built `Err` is `IsErr`, and
      both are valid. */
  lemma FactoryResultsHaveTheirTag<T, E>(tyT: CsType<T>, tyE: CsType<E>, v: T, e: E, s: CsString)
    ensures ResultExtensions.IsOk(StringOk(v)) && ResultExtensions.IsOk(GenericOk(tyE, v))
    ensures ResultExtensions.IsErr(StringErr(tyT, s)) && ResultExtensions.IsErr(GenericErr(tyT, e))
    ensures Valid(tyT, StringType(), StringOk(v)) && Valid(tyT, StringType(), StringErr(tyT, s))
    ensures Valid(tyT, tyE, GenericOk(tyE, v)) && Valid(tyT, tyE, GenericErr(tyT, e))
  {
  }

  /** Factory results are equal exactly when their payloads are, and an `Ok`
      never equals an `Err`. */
  lemma FactoryResultsEqualByPayload<T>(tyT: CsType<T>, v1: T, v2: T, s1: CsString, s2: CsString)
    ensures OpEquality(StringOk(v1), StringOk(v2)) <==> v1 == v2
    ensures OpEquality(StringErr(tyT, s1), StringErr(tyT, s2)) <==> s1 == s2
    ensures OpInequality(StringOk(v1), StringErr(tyT, s1))
  {
  }

  /** The concrete cases of the result tests, on `int` values and `string` errors. */
  lemma IntExamples()
    ensures OpEquality(StringOk(5), StringOk(5)) && OpInequality(StringOk(5), StringOk(6))
    ensures OpEquality(StringErr(IntType(), NonNull("Error")), StringErr(IntType(), NonNull("Error")))
    ensures OpInequality(StringErr(IntType(), NonNull("Error")), StringErr(IntType(), NonNull("Error1")))
    ensures OpInequality(StringOk(5), StringErr(IntType(), NonNull("Error")))
  {
  }

  /** The concrete cases of the result-extension tests, with the string
      length helper `Count` as a lambda. */
  lemma ExtensionExamples()
    ensures ResultExtensions.IsOk(StringOk(10)) && !ResultExtensions.IsOk(StringErr(IntType(), NonNull("Something went wrong")))
    ensures !ResultExtensions.IsErr(StringOk(-3)) && ResultExtensions.IsErr(StringErr(IntType(), NonNull("Something went wrong")))
    ensures ResultExtensions.Ok(StringOk(10), IntType()) == Returned(Options.Option(true, 10))
    ensures ResultExtensions.Ok(StringErr(IntType(), NonNull("Something went wrong")), IntType()) == Returned(Options.None(IntType()))
    ensures ResultExtensions.UnwrapOrDefault(StringOk(2), IntType()) == 2
    ensures ResultExtensions.UnwrapOrDefault(StringErr(IntType(), NonNull("Nothing here")), IntType()) == 0
    ensures ResultExtensions.UnwrapOr(StringOk(2), IntType(), 42) == Returned(2)
    ensures ResultExtensions.UnwrapOr(StringErr(IntType(), NonNull("Something went wrong")), IntType(), 42) == Returned(42)
    ensures ResultExtensions.Filter(StringOk(5), IntType(), NonNull((i: int) => i > 2)) == Returned(Options.Option(true, 5))
    ensures ResultExtensions.Filter(StringOk(5), IntType(), NonNull((i: int) => i > 10)) == Returned(Options.None(IntType()))
    ensures ResultExtensions.Filter(StringErr(IntType(), NonNull("Nothing here")), IntType(), NonNull((i: int) => i > 2)) == Returned(Options.None(IntType()))
    ensures ResultExtensions.Iter(StringOk(5)) == [5]
    ensures ResultExtensions.Iter(StringErr(IntType(), NonNull("Nothing here"))) == []
    ensures ResultExtensions.UnwrapOrElse(StringOk(2), NonNull((s: CsString) => if s.Null? then 0 else |s.value|)) == Returned(2)
    ensures ResultExtensions.UnwrapOrElse(StringErr(IntType(), NonNull("foo")), NonNull((s: CsString) => if s.Null? then 0 else |s.value|)) == Returned(3)
  {
  }
}
