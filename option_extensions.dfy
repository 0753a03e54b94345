/** OptionExtensions.cs: the combinators on `Option<T>`. Each one dispatches on
    the tag and guards its callback only on the branch that calls it. */
module OptionExtensions {
  import opened Runtime
  import opened Contracts
  import opened Options

  /** `IsSome()`: the tag. */
  predicate IsSome<T>(self: Option<T>) {
    self.isSome
  }

  /** `IsNone()`: the negated tag. */
  predicate IsNone<T>(self: Option<T>) {
    !self.isSome
  }

  /** `Map(Func<T, U> op)`: apply op to a present payload and rewrap the
      result with `Option<U>.Some`; an absent option stays absent. */
  function Map<T, U>(self: Option<T>, tyU: CsType<U>, op: Func<T, U>): Outcome<Option<U>> {
    if self.isSome then
      match Invoke(op, self.value)
      case Threw(e) => Threw(e)
      case Returned(u) => Options.Some(tyU, u)
    else
      Returned(Options.None(tyU))
  }

  /** `Map(Func<T, Option<U>> op)`: the flattening overload (bind); op's option
      is the result itself. */
  function FlatMap<T, U>(self: Option<T>, tyU: CsType<U>, op: Func<T, Option<U>>): Outcome<Option<U>> {
    if self.isSome then Invoke(op, self.value) else Returned(Options.None(tyU))
  }

  /** `Or(T default)`: the payload, or the fallback when absent. */
  function Or<T>(self: Option<T>, fallback: T): T {
    if self.isSome then self.value else fallback
  }

  /** `Or(Func<T> op)`: the payload, or the supplier's value when absent. */
  function OrElse<T>(self: Option<T>, op: Func0<T>): Outcome<T> {
    if self.isSome then Returned(self.value) else Invoke0(op)
  }

  /** `IsNone` is always the negation of `IsSome`. */
  lemma IsNoneIsNotIsSome<T>(self: Option<T>)
    ensures IsNone(self) <==> !IsSome(self)
  {
  }

  /** `Map` on a present payload x gives `Some(op(x))`, fails in the guard
      of `Some` when op(x) is null, and fails in the guard of op when op is null. */
  lemma MapPresent<T, U>(x: T, tyU: CsType<U>, f: T -> U)
    ensures !tyU.isNull(f(x)) ==> Map(Option(true, x), tyU, NonNull(f)) == Returned(Option(true, f(x)))
    ensures tyU.isNull(f(x)) ==> Map(Option(true, x), tyU, NonNull(f)) == Threw(ArgumentNullException("value"))
    ensures Map(Option(true, x), tyU, Null) == Threw(ArgumentNullException("value"))
  {
  }

  /** `Map` on an absent option gives `None` for every op, even a null one:
      op is neither checked nor called. */
  lemma MapAbsent<T, U>(self: Option<T>, tyU: CsType<U>, op: Func<T, U>)
    requires !self.isSome
    ensures Map(self, tyU, op) == Returned(Options.None(tyU))
  {
  }

  /** Whatever `Map` returns is a valid option. */
  lemma MapYieldsValid<T, U>(self: Option<T>, tyU: CsType<U>, op: Func<T, U>)
    ensures Map(self, tyU, op).Returned? ==> Valid(tyU, Map(self, tyU, op).value)
  {
  }

  /** The flattening `Map` returns op's option itself on a present payload,
      and `None` without touching op on an absent one. */
  lemma FlatMapCases<T, U>(self: Option<T>, tyU: CsType<U>, op: Func<T, Option<U>>)
    ensures self.isSome && op.NonNull? ==> FlatMap(self, tyU, op) == Returned(op.value(self.value))
    ensures self.isSome && op.Null? ==> FlatMap(self, tyU, op) == Threw(ArgumentNullException("value"))
    ensures !self.isSome ==> FlatMap(self, tyU, op) == Returned(Options.None(tyU))
  {
  }

  /** `Map` is the flattening `Map` of an op that wraps its non-null result. */
  lemma MapIsFlatMapOfWrapped<T, U>(self: Option<T>, tyU: CsType<U>, f: T -> U)
    requires self.isSome ==> !tyU.isNull(f(self.value))
    ensures Map(self, tyU, NonNull(f)) == FlatMap(self, tyU, NonNull(x => Option(true, f(x))))
  {
  }

  /** `Or(d)` gives the payload of `Some(x)` and d for `None`. */
  lemma OrCases<T>(ty: CsType<T>, x: T, fallback: T)
    requires !ty.isNull(x)
    ensures Options.Some(ty, x).Returned? && Or(Options.Some(ty, x).value, fallback) == x
    ensures Or(Options.None(ty), fallback) == fallback
  {
  }

  /** `Or(supplier)` ignores the supplier, even a null one, on a present
      payload, and calls it only when the option is absent. */
  lemma OrElseCases<T>(self: Option<T>, op: Func0<T>)
    ensures self.isSome ==> OrElse(self, op) == Returned(self.value)
    ensures !self.isSome && op.NonNull? ==> OrElse(self, op) == Returned(op.value())
    ensures !self.isSome && op.Null? ==> OrElse(self, op) == Threw(ArgumentNullException("value"))
  {
  }

  /** The lazy `Or` with a constant supplier is the eager `Or`. */
  lemma OrElseOfConstantIsOr<T>(self: Option<T>, fallback: T)
    ensures OrElse(self, NonNull(() => fallback)) == Returned(Or(self, fallback))
  {
  }

  /** The mapping law: `Some(x).Map(f).Or(d) == f(x)` and `None.Map(f).Or(d) == d`. */
  lemma MapThenOr<T, U>(self: Option<T>, tyU: CsType<U>, f: T -> U, fallback: U)
    requires self.isSome ==> !tyU.isNull(f(self.value))
    ensures Map(self, tyU, NonNull(f)).Returned?
    ensures Or(Map(self, tyU, NonNull(f)).value, fallback) == if self.isSome then f(self.value) else fallback
  {
  }

  /** Mapping the identity returns the option unchanged. */
  lemma MapIdentity<T>(ty: CsType<T>, self: Option<T>)
    requires Valid(ty, self)
    ensures Map(self, ty, NonNull(x => x)) == Returned(self)
  {
  }

  /** Mapping twice is mapping the composition, as long as the first op
      does not produce null (a null intermediate fails in `Some`). */
  lemma MapComposition<T, U, V>(self: Option<T>, tyU: CsType<U>, tyV: CsType<V>, f: T -> U, g: U -> V)
    requires self.isSome ==> !tyU.isNull(f(self.value))
    ensures Map(self, tyU, NonNull(f)).Returned?
    ensures Map(Map(self, tyU, NonNull(f)).value, tyV, NonNull(g)) == Map(self, tyV, NonNull(x => g(f(x))))
  {
  }
}
