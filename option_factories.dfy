/** OptionFactories.cs: the static `Some<T>` and `None<T>` used by callers. */
module OptionFactories {
  import opened Runtime
  import Options
  import opened OptionExtensions

  /** `Some<T>(value)`: `new(value)`. */
  function Some<T>(ty: CsType<T>, value: T): Outcome<Options.Option<T>> {
    Options.New(ty, value)
  }

  /** `None<T>()`: `Option<T>.None`. */
  function None<T>(ty: CsType<T>): Options.Option<T> {
    Options.None(ty)
  }

  /** The factory `Some` is the constructor, so it is `IsSome` for a non-null
      value and throws for null. */
  lemma SomeIsConstructor<T>(ty: CsType<T>, value: T)
    ensures Some(ty, value) == Options.New(ty, value) == Options.Some(ty, value)
    ensures !ty.isNull(value) ==> Some(ty, value).Returned? && IsSome(Some(ty, value).value)
    ensures ty.isNull(value) ==> Some(ty, value) == Threw(ArgumentNullException("value"))
  {
  }

  /** The factory `None` is the default struct, so it is `IsNone`. */
  lemma NoneIsNone<T>(ty: CsType<T>)
    ensures None(ty) == Options.None(ty)
    ensures IsNone(None(ty)) && !IsSome(None(ty))
  {
  }

  /** `None<T>() == None<T>()`; `Some(a) == Some(b)` exactly when a == b;
      and `Some(a) != None<T>()`. */
  lemma FactoryEquality<T>(ty: CsType<T>, a: T, b: T)
    requires !ty.isNull(a) && !ty.isNull(b)
    ensures Options.OpEquality(None(ty), None(ty))
    ensures Some(ty, a).Returned? && Some(ty, b).Returned?
    ensures Options.OpEquality(Some(ty, a).value, Some(ty, b).value) <==> a == b
    ensures Options.OpInequality(Some(ty, a).value, None(ty))
  {
  }

  /** The string cases of the option tests. */
  lemma StringExamples()
    ensures Options.OpInequality(Some(StringType(), NonNull("test1")).value, Some(StringType(), NonNull("test2")).value)
    ensures Options.OpEquality(Some(StringType(), NonNull("test")).value, Some(StringType(), NonNull("test")).value)
    ensures Options.OpInequality(Some(StringType(), NonNull("test")).value, None(StringType()))
    ensures Options.OpEquality(None(StringType()), None(StringType()))
    ensures Or(Some(StringType(), NonNull("Hello there")).value, NonNull("Nothing here")) == NonNull("Hello there")
    ensures Or(None(StringType()), NonNull("Nothing here")) == NonNull("Nothing here")
    ensures Some(StringType(), Null) == Threw(ArgumentNullException("value"))
  {
  }
}
