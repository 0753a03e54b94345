/** Option.cs: the readonly struct `Option<T>`, its `None`/`Some` factories,
    its structural equality and hash, and the `==`/`!=` operators. */
module Options {
  import opened Runtime
  import opened Contracts

  /** The two fields of the struct: the tag `_isSome` and the payload `_value`. */
  datatype Option<T> = Option(isSome: bool, value: T)

  /** `Option<T>.None`: the default struct, with tag false and payload `default(T)`. */
  function None<T>(ty: CsType<T>): Option<T> {
    Option(false, ty.defaultValue)
  }

  /** `new Option<T>(value)`: the field initialisers run in order, so `_isSome`
      is computed first and then `_value = Contracts.ThrowIfNull(value)` throws
      for a null argument. */
  function New<T>(ty: CsType<T>, value: T): Outcome<Option<T>> {
    var isSome := !ty.isNull(value);
    match ThrowIfNull(ty, value)
    case Threw(e) => Threw(e)
    case Returned(v) => Returned(Option(isSome, v))
  }

  /** `Option<T>.Some(value)`: `new(value)`. */
  function Some<T>(ty: CsType<T>, value: T): Outcome<Option<T>> {
    New(ty, value)
  }

  /** The shapes the constructor and the default struct can produce: a present
      payload is never null, and an absent one is `default(T)`. */
  ghost predicate Valid<T>(ty: CsType<T>, o: Option<T>) {
    if o.isSome then !ty.isNull(o.value) else o.value == ty.defaultValue
  }

  /** `Equals(Option<T> other)`: the tags and, through
      `EqualityComparer<T>.Default`, the payloads agree. */
  predicate Equals<T(==)>(self: Option<T>, other: Option<T>) {
    self.isSome == other.isSome && self.value == other.value
  }

  /** `Equals(object? obj)`: only a boxed `Option<T>` can be equal. */
  predicate EqualsObject<T(==)>(self: Option<T>, obj: Boxed<Option<T>>) {
    obj.Boxed? && Equals(self, obj.value)
  }

  /** `GetHashCode()`: `HashCode.Combine(_isSome, _value)`; the per-process
      seeded combiner is a parameter. */
  function GetHashCode<T>(self: Option<T>, combine: (bool, T) -> int): int {
    combine(self.isSome, self.value)
  }

  /** `operator ==`: `left.Equals(right)`. */
  predicate OpEquality<T(==)>(left: Option<T>, right: Option<T>) {
    Equals(left, right)
  }

  /** `operator !=`: `!(left == right)`. */
  predicate OpInequality<T(==)>(left: Option<T>, right: Option<T>) {
    !OpEquality(left, right)
  }

  /** Constructing an option from null fails in the guard. */
  lemma NewOfNullThrows<T>(ty: CsType<T>, value: T)
    requires ty.isNull(value)
    ensures New(ty, value) == Threw(ArgumentNullException("value"))
    ensures Some(ty, value) == Threw(ArgumentNullException("value"))
  {
  }

  /** `Some(v)` of a non-null v carries tag true and payload v, and is valid. */
  lemma SomeOfValue<T>(ty: CsType<T>, value: T)
    requires !ty.isNull(value)
    ensures Some(ty, value) == Returned(Option(true, value))
    ensures Valid(ty, Some(ty, value).value)
  {
  }

  /** `None` has tag false and is valid. */
  lemma NoneIsDefault<T>(ty: CsType<T>)
    ensures !None(ty).isSome
    ensures Valid(ty, None(ty))
  {
  }

  /** Whatever the argument, the constructor either throws or yields a valid option. */
  lemma ConstructedOptionsAreValid<T>(ty: CsType<T>, value: T)
    ensures New(ty, value).Returned? ==> Valid(ty, New(ty, value).value) && New(ty, value).value.value == value
    ensures New(ty, value).Threw? <==> ty.isNull(value)
  {
  }

  /** `Equals` is equality of the whole struct; on valid options it is "same
      variant, and the same payload when both are present". */
  lemma EqualsIffSameVariantAndPayload<T>(ty: CsType<T>, a: Option<T>, b: Option<T>)
    requires Valid(ty, a) && Valid(ty, b)
    ensures Equals(a, b) <==> a == b
    ensures Equals(a, b) <==> a.isSome == b.isSome && (a.isSome ==> a.value == b.value)
  {
  }

  /** `Equals` is an equivalence relation. */
  lemma EqualsIsEquivalence<T>(a: Option<T>, b: Option<T>, c: Option<T>)
    ensures Equals(a, a)
    ensures Equals(a, b) ==> Equals(b, a)
    ensures Equals(a, b) && Equals(b, c) ==> Equals(a, c)
  {
  }

  /** `Equals(object)` holds only for a boxed option that is `Equals` to this one. */
  lemma EqualsObjectOnlyForOptions<T>(self: Option<T>, other: Option<T>)
    ensures !EqualsObject(self, BoxedNull)
    ensures !EqualsObject(self, BoxedOther)
    ensures EqualsObject(self, Boxed(other)) <==> Equals(self, other)
  {
  }

  /** `==` coincides with `Equals` and `!=` is its negation. */
  lemma OperatorsAgreeWithEquals<T>(left: Option<T>, right: Option<T>)
    ensures OpEquality(left, right) <==> Equals(left, right)
    ensures OpInequality(left, right) <==> !Equals(left, right)
  {
  }

  /** Equal options hash alike, whatever the combiner's seed. */
  lemma EqualOptionsHashAlike<T>(a: Option<T>, b: Option<T>, combine: (bool, T) -> int)
    requires Equals(a, b)
    ensures GetHashCode(a, combine) == GetHashCode(b, combine)
  {
  }
}
