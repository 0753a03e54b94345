/** Result.cs: the readonly struct `Result<T, E>`, its two private
    constructors behind the `Ok`/`Err` factories, its field-wise equality and
    hash, and the `==`/`!=` operators. */
module Results {
  import opened Runtime

  /** The three fields of the struct: `_isOk`, `_value` and `_error`. */
  datatype Result<T, E> = Result(isOk: bool, value: T, error: E)

  /** `Result<T, E>.Ok(value)`: the constructor `Result(T value)` sets the
      value, `default(E)` as the error and the tag true. No null check. */
  function Ok<T, E>(tyE: CsType<E>, value: T): Result<T, E> {
    Result(true, value, tyE.defaultValue)
  }

  /** `Result<T, E>.Err(error)`: the constructor `Result(E error)` sets the
      error and `default(T)` as the value; the tag keeps its initialiser,
      false. No null check. */
  function Err<T, E>(tyT: CsType<T>, error: E): Result<T, E> {
    Result(false, tyT.defaultValue, error)
  }

  /** The shapes the two constructors produce: the slot of the other variant
      holds its type's default. */
  ghost predicate Valid<T, E>(tyT: CsType<T>, tyE: CsType<E>, r: Result<T, E>) {
    if r.isOk then r.error == tyE.defaultValue else r.value == tyT.defaultValue
  }

  /** `GetHashCode()`: `HashCode.Combine(_isOk, _value, _error)`, with the
      seeded combiner as a parameter. */
  function GetHashCode<T, E>(self: Result<T, E>, combine: (bool, T, E) -> int): int {
    combine(self.isOk, self.value, self.error)
  }

  /** `Equals(Result<T, E> other)`: tag, value and error all agree. */
  predicate Equals<T(==), E(==)>(self: Result<T, E>, other: Result<T, E>) {
    self.isOk == other.isOk && self.value == other.value && self.error == other.error
  }

  /** `Equals(object? obj)`: only a boxed `Result<T, E>` can be equal. */
  predicate EqualsObject<T(==), E(==)>(self: Result<T, E>, obj: Boxed<Result<T, E>>) {
    obj.Boxed? && Equals(self, obj.value)
  }

  /** `operator ==`: `left.Equals(right)`. */
  predicate OpEquality<T(==), E(==)>(left: Result<T, E>, right: Result<T, E>) {
    Equals(left, right)
  }

  /** `operator !=`: `!(left == right)`. */
  predicate OpInequality<T(==), E(==)>(left: Result<T, E>, right: Result<T, E>) {
    !OpEquality(left, right)
  }

  /** `Ok(v)` has tag true, value v and the default error; it is valid and
      accepts any v, null included. */
  lemma OkShape<T, E>(tyT: CsType<T>, tyE: CsType<E>, value: T)
    ensures Ok(tyE, value).isOk && Ok(tyE, value).value == value
    ensures Ok(tyE, value).error == tyE.defaultValue
    ensures Valid(tyT, tyE, Ok(tyE, value))
  {
  }

  /** `Err(e)` has tag false, error e and the default value; it is valid and
      accepts any e, null included. */
  lemma ErrShape<T, E>(tyT: CsType<T>, tyE: CsType<E>, error: E)
    ensures !Err(tyT, error).isOk && Err(tyT, error).error == error
    ensures Err(tyT, error).value == tyT.defaultValue
    ensures Valid(tyT, tyE, Err(tyT, error))
  {
  }

  /** `Equals` is equality of the whole struct; on valid results it is "same
      variant and equal payload of that variant". */
  lemma EqualsIffSameVariantAndPayload<T, E>(tyT: CsType<T>, tyE: CsType<E>, a: Result<T, E>, b: Result<T, E>)
    requires Valid(tyT, tyE, a) && Valid(tyT, tyE, b)
    ensures Equals(a, b) <==> a == b
    ensures Equals(a, b) <==> a.isOk == b.isOk && (if a.isOk then a.value == b.value else a.error == b.error)
  {
  }

  /** The factories are injective and never produce equal Ok and Err results. */
  lemma FactoriesAreInjective<T, E>(tyT: CsType<T>, tyE: CsType<E>, v1: T, v2: T, e1: E, e2: E)
    ensures OpEquality(Ok(tyE, v1), Ok(tyE, v2)) <==> v1 == v2
    ensures OpEquality(Err(tyT, e1), Err(tyT, e2)) <==> e1 == e2
    ensures OpInequality(Ok(tyE, v1), Err(tyT, e1))
  {
  }

  /** `Equals(object)` holds only for a boxed result that is `Equals` to this one. */
  lemma EqualsObjectOnlyForResults<T, E>(self: Result<T, E>, other: Result<T, E>)
    ensures !EqualsObject(self, BoxedNull)
    ensures !EqualsObject(self, BoxedOther)
    ensures EqualsObject(self, Boxed(other)) <==> Equals(self, other)
  {
  }

  /** `==` coincides with `Equals` and `!=` is its negation. */
  lemma OperatorsAgreeWithEquals<T, E>(left: Result<T, E>, right: Result<T, E>)
    ensures OpEquality(left, right) <==> Equals(left, right)
    ensures OpInequality(left, right) <==> !Equals(left, right)
  {
  }

  /** Equal results hash alike, whatever the combiner's seed. */
  lemma EqualResultsHashAlike<T, E>(a: Result<T, E>, b: Result<T, E>, combine: (bool, T, E) -> int)
    requires Equals(a, b)
    ensures GetHashCode(a, combine) == GetHashCode(b, combine)
  {
  }
}
