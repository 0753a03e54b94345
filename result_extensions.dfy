/** ResultExtensions.cs: the combinators on `Result<T, E>`. Each one is a
    conditional on `_isOk` and guards its callback only on the branch that
    calls it. */
module ResultExtensions {
  import opened Runtime
  import opened Contracts
  import Options
  import opened Results

  /** `UnwrapOrDefault()`: the value, or `default(T)` for an error. */
  function UnwrapOrDefault<T, E>(self: Result<T, E>, tyT: CsType<T>): T {
    if self.isOk then self.value else tyT.defaultValue
  }

  /** `UnwrapOr(T default)`: the value, or the guarded fallback for an error. */
  function UnwrapOr<T, E>(self: Result<T, E>, tyT: CsType<T>, fallback: T): Outcome<T> {
    if self.isOk then Returned(self.value) else ThrowIfNull(tyT, fallback)
  }

  /** `UnwrapOrElse(Func<E, T> op)`: the value, or op applied to the error. */
  function UnwrapOrElse<T, E>(self: Result<T, E>, op: Func<E, T>): Outcome<T> {
    if self.isOk then Returned(self.value) else Invoke(op, self.error)
  }

  /** `Filter(Func<T, bool> op)`: `Some(value)` when the result is Ok and op
      accepts the value, otherwise `None`; `&&` skips op for an error. */
  function Filter<T, E>(self: Result<T, E>, tyT: CsType<T>, op: Func<T, bool>): Outcome<Options.Option<T>> {
    if !self.isOk then Returned(Options.None(tyT))
    else
      match Invoke(op, self.value)
      case Threw(e) => Threw(e)
      case Returned(keep) => if keep then Options.Some(tyT, self.value) else Returned(Options.None(tyT))
  }

  /** `IsOk()`: the tag. */
  predicate IsOk<T, E>(self: Result<T, E>) {
    self.isOk
  }

  /** `IsErr()`: the negated tag. */
  predicate IsErr<T, E>(self: Result<T, E>) {
    !self.isOk
  }

  /** `Ok()`: the bridge to `Option`, `Some(value)` or `None`. */
  function Ok<T, E>(self: Result<T, E>, tyT: CsType<T>): Outcome<Options.Option<T>> {
    if self.isOk then Options.Some(tyT, self.value) else Returned(Options.None(tyT))
  }

  /** `Map(Func<T, U> op)`: an Ok value is transformed and rewrapped with
      `Result<U, E>.Ok`, an error is rewrapped unchanged with `Result<U, E>.Err`. */
  function Map<T, U, E>(self: Result<T, E>, tyU: CsType<U>, tyE: CsType<E>, op: Func<T, U>): Outcome<Result<U, E>> {
    if self.isOk then
      match Invoke(op, self.value)
      case Threw(e) => Threw(e)
      case Returned(u) => Returned(Results.Ok(tyE, u))
    else
      Returned(Results.Err(tyU, self.error))
  }

  /** `Map(Func<T, Result<U, E>> op)`: the binding overload; op's result is the
      result itself, and an error short-circuits. */
  function FlatMap<T, U, E>(self: Result<T, E>, tyU: CsType<U>, op: Func<T, Result<U, E>>): Outcome<Result<U, E>> {
    if self.isOk then Invoke(op, self.value) else Returned(Results.Err(tyU, self.error))
  }

  /** `MapErr(Func<E, F> op)`: an Ok value is rewrapped with `Result<T, F>.Ok`,
      an error is transformed and rewrapped with `Result<T, F>.Err`. */
  function MapErr<T, E, F>(self: Result<T, E>, tyT: CsType<T>, tyF: CsType<F>, op: Func<E, F>): Outcome<Result<T, F>> {
    if self.isOk then
      Returned(Results.Ok(tyF, self.value))
    else
      match Invoke(op, self.error)
      case Threw(e) => Threw(e)
      case Returned(f) => Returned(Results.Err(tyT, f))
  }

  /** `Iter()`: `[_value]` for Ok and `[]` for an error. */
  function Iter<T, E>(self: Result<T, E>): seq<T> {
    if self.isOk then [self.value] else []
  }

  /** `IsErr` is always the negation of `IsOk`. */
  lemma IsErrIsNotIsOk<T, E>(self: Result<T, E>)
    ensures IsErr(self) <==> !IsOk(self)
  {
  }

  /** `Ok()` gives `Some(v)` for `Ok(v)` with v non-null (and fails in the guard
      of `Some` for a null v), and `None` for every error. */
  lemma OkBridgesToOption<T, E>(tyT: CsType<T>, tyE: CsType<E>, v: T, e: E)
    ensures !tyT.isNull(v) ==> Ok(Results.Ok(tyE, v), tyT) == Returned(Options.Option(true, v))
    ensures tyT.isNull(v) ==> Ok(Results.Ok(tyE, v), tyT) == Threw(ArgumentNullException("value"))
    ensures Ok(Results.Err(tyT, e), tyT) == Returned(Options.None(tyT))
  {
  }

  /** `UnwrapOrDefault` gives v for `Ok(v)` and `default(T)` for an error; on a
      valid result it is simply the value field. */
  lemma UnwrapOrDefaultCases<T, E>(tyT: CsType<T>, tyE: CsType<E>, v: T, e: E, r: Result<T, E>)
    ensures UnwrapOrDefault(Results.Ok(tyE, v), tyT) == v
    ensures UnwrapOrDefault(Results.Err(tyT, e), tyT) == tyT.defaultValue
    ensures Valid(tyT, tyE, r) ==> UnwrapOrDefault(r, tyT) == r.value
  {
  }

  /** `UnwrapOr(d)` gives v for `Ok(v)` whatever d is, null included; for an
      error it gives d, and a null d fails. */
  lemma UnwrapOrCases<T, E>(tyT: CsType<T>, tyE: CsType<E>, v: T, e: E, fallback: T)
    ensures UnwrapOr(Results.Ok(tyE, v), tyT, fallback) == Returned(v)
    ensures !tyT.isNull(fallback) ==> UnwrapOr(Results.Err(tyT, e), tyT, fallback) == Returned(fallback)
    ensures tyT.isNull(fallback) ==> UnwrapOr(Results.Err(tyT, e), tyT, fallback) == Threw(ArgumentNullException("value"))
  {
  }

  /** `UnwrapOrElse(op)` gives v for `Ok(v)` without touching op, even a null
      one, and `op(e)` for `Err(e)`. */
  lemma UnwrapOrElseCases<T, E>(tyT: CsType<T>, tyE: CsType<E>, v: T, e: E, op: Func<E, T>)
    ensures UnwrapOrElse(Results.Ok(tyE, v), op) == Returned(v)
    ensures op.NonNull? ==> UnwrapOrElse(Results.Err(tyT, e), op) == Returned(op.value(e))
    ensures op.Null? ==> UnwrapOrElse(Results.Err(tyT, e), op) == Threw(ArgumentNullException("value"))
  {
  }

  /** With a non-null fallback, `UnwrapOr(d)` is `UnwrapOrElse(_ => d)`. */
  lemma UnwrapOrIsUnwrapOrElseOfConstant<T, E>(self: Result<T, E>, tyT: CsType<T>, fallback: T)
    requires !tyT.isNull(fallback)
    ensures UnwrapOr(self, tyT, fallback) == UnwrapOrElse(self, NonNull((_: E) => fallback))
  {
  }

  /** `Filter(p)` on a result whose Ok value is non-null gives `Some(v)`
      exactly when the result is `Ok(v)` and p(v) holds, and `None` otherwise.
      On `Ok(v)` a null p fails in its guard, and a null v that p accepts
      fails in the guard of `Some`. */
  lemma FilterCases<T, E>(self: Result<T, E>, tyT: CsType<T>, p: T -> bool)
    ensures !(self.isOk && tyT.isNull(self.value)) ==>
              (Filter(self, tyT, NonNull(p)) == Returned(Options.Option(true, self.value)) <==> self.isOk && p(self.value))
    ensures !(self.isOk && tyT.isNull(self.value)) ==>
              (Filter(self, tyT, NonNull(p)) == Returned(Options.None(tyT)) <==> !(self.isOk && p(self.value)))
    ensures self.isOk && tyT.isNull(self.value) && p(self.value) ==>
              Filter(self, tyT, NonNull(p)) == Threw(ArgumentNullException("value"))
    ensures self.isOk && tyT.isNull(self.value) && !p(self.value) ==>
              Filter(self, tyT, NonNull(p)) == Returned(Options.None(tyT))
    ensures self.isOk ==> Filter(self, tyT, Null) == Threw(ArgumentNullException("value"))
  {
  }

  /** On an error `Filter` gives `None` for every predicate, null included:
      the predicate is never evaluated. */
  lemma FilterOfErrIgnoresPredicate<T, E>(tyT: CsType<T>, e: E, op: Func<T, bool>)
    ensures Filter(Results.Err(tyT, e), tyT, op) == Returned(Options.None(tyT))
  {
  }

  /** Whatever `Filter` and `Ok()` return is a valid option. */
  lemma OptionBridgesYieldValid<T, E>(self: Result<T, E>, tyT: CsType<T>, op: Func<T, bool>)
    ensures Filter(self, tyT, op).Returned? ==> Options.Valid(tyT, Filter(self, tyT, op).value)
    ensures Ok(self, tyT).Returned? ==> Options.Valid(tyT, Ok(self, tyT).value)
  {
  }

  /** A filter that accepts everything is the bridge `Ok()`. */
  lemma FilterAcceptingAllIsOk<T, E>(self: Result<T, E>, tyT: CsType<T>)
    ensures Filter(self, tyT, NonNull((_: T) => true)) == Ok(self, tyT)
  {
  }

  /** `Map(f)` turns `Ok(v)` into `Ok(f(v))` with no null check of f(v), and
      `Err(e)` into `Err(e)` without touching f; a null f fails on `Ok`. */
  lemma MapCases<T, U, E>(tyT: CsType<T>, tyU: CsType<U>, tyE: CsType<E>, v: T, e: E, f: T -> U, op: Func<T, U>)
    ensures Map(Results.Ok(tyE, v), tyU, tyE, NonNull(f)) == Returned(Results.Ok(tyE, f(v)))
    ensures Map(Results.Err(tyT, e), tyU, tyE, op) == Returned(Results.Err(tyU, e))
    ensures Map(Results.Ok(tyE, v), tyU, tyE, Null) == Threw(ArgumentNullException("value"))
  {
  }

  /** `MapErr(g)` turns `Ok(v)` into `Ok(v)` without touching g, and `Err(e)`
      into `Err(g(e))`; a null g fails on `Err`. */
  lemma MapErrCases<T, E, F>(tyT: CsType<T>, tyE: CsType<E>, tyF: CsType<F>, v: T, e: E, g: E -> F, op: Func<E, F>)
    ensures MapErr(Results.Ok(tyE, v), tyT, tyF, op) == Returned(Results.Ok(tyF, v))
    ensures MapErr(Results.Err(tyT, e), tyT, tyF, NonNull(g)) == Returned(Results.Err(tyT, g(e)))
    ensures MapErr(Results.Err(tyT, e), tyT, tyF, Null) == Threw(ArgumentNullException("value"))
  {
  }

  /** The binding `Map(g)` turns `Ok(v)` into `g(v)` and short-circuits
      `Err(e)` to `Err(e)` without touching g; a null g fails on `Ok`. */
  lemma FlatMapCases<T, U, E>(tyT: CsType<T>, tyU: CsType<U>, tyE: CsType<E>, v: T, e: E, g: T -> Result<U, E>, op: Func<T, Result<U, E>>)
    ensures FlatMap(Results.Ok(tyE, v), tyU, NonNull(g)) == Returned(g(v))
    ensures FlatMap(Results.Err(tyT, e), tyU, op) == Returned(Results.Err(tyU, e))
    ensures FlatMap(Results.Ok(tyE, v), tyU, Null) == Threw(ArgumentNullException("value"))
  {
  }

  /** Every combinator that builds a result keeps results valid. */
  lemma CombinatorsPreserveValid<T, U, E, F>(self: Result<T, E>, tyT: CsType<T>, tyU: CsType<U>, tyE: CsType<E>, tyF: CsType<F>,
                                             f: Func<T, U>, g: Func<E, F>)
    ensures Map(self, tyU, tyE, f).Returned? ==> Valid(tyU, tyE, Map(self, tyU, tyE, f).value)
    ensures MapErr(self, tyT, tyF, g).Returned? ==> Valid(tyT, tyF, MapErr(self, tyT, tyF, g).value)
  {
  }

  /** Mapping the identity over either variant returns the result unchanged. */
  lemma MapIdentity<T, E>(self: Result<T, E>, tyT: CsType<T>, tyE: CsType<E>)
    requires Valid(tyT, tyE, self)
    ensures Map(self, tyT, tyE, NonNull((x: T) => x)) == Returned(self)
    ensures MapErr(self, tyT, tyE, NonNull((x: E) => x)) == Returned(self)
  {
  }

  /** Mapping twice is mapping the composition (`Map` never null-checks f's result). */
  lemma MapComposition<T, U, V, E>(self: Result<T, E>, tyU: CsType<U>, tyV: CsType<V>, tyE: CsType<E>, f: T -> U, g: U -> V)
    ensures Map(self, tyU, tyE, NonNull(f)).Returned?
    ensures Map(Map(self, tyU, tyE, NonNull(f)).value, tyV, tyE, NonNull(g)) == Map(self, tyV, tyE, NonNull(x => g(f(x))))
  {
  }

  /** `Map(f)` is the binding `Map` of `x => Ok(f(x))`. */
  lemma MapIsFlatMapOfOk<T, U, E>(self: Result<T, E>, tyU: CsType<U>, tyE: CsType<E>, f: T -> U)
    ensures Map(self, tyU, tyE, NonNull(f)) == FlatMap(self, tyU, NonNull(x => Results.Ok(tyE, f(x))))
  {
  }

  /** `Ok` is a right identity of the binding `Map` on valid results. */
  lemma FlatMapOkIsIdentity<T, E>(self: Result<T, E>, tyT: CsType<T>, tyE: CsType<E>)
    requires Valid(tyT, tyE, self)
    ensures FlatMap(self, tyT, NonNull((x: T) => Results.Ok(tyE, x))) == Returned(self)
  {
  }

  /** Binding twice is binding the composed continuation. */
  lemma FlatMapAssociative<T, U, V, E>(self: Result<T, E>, tyU: CsType<U>, tyV: CsType<V>, f: T -> Result<U, E>, g: U -> Result<V, E>)
    ensures FlatMap(self, tyU, NonNull(f)).Returned?
    ensures FlatMap(FlatMap(self, tyU, NonNull(f)).value, tyV, NonNull(g))
         == FlatMap(self, tyV, NonNull(x => var m := f(x); if m.isOk then g(m.value) else Results.Err(tyV, m.error)))
  {
  }

  /** `Iter` yields exactly `[v]` for `Ok(v)` and nothing for an error, so it
      holds at most one element, and the same one `Ok()` would wrap. */
  lemma IterCases<T, E>(self: Result<T, E>, tyT: CsType<T>)
    ensures |Iter(self)| <= 1
    ensures |Iter(self)| == 1 <==> IsOk(self)
    ensures Iter(self) == [] <==> IsErr(self)
    ensures IsOk(self) ==> Iter(self)[0] == self.value
    ensures Ok(self, tyT).Returned? && Ok(self, tyT).value.isSome ==> Iter(self) == [Ok(self, tyT).value.value]
  {
  }

  /** The mapping law for results: `Ok(v).Map(f).UnwrapOrDefault() == f(v)`
      and an error maps to `default(U)`. */
  lemma MapThenUnwrapOrDefault<T, U, E>(self: Result<T, E>, tyU: CsType<U>, tyE: CsType<E>, f: T -> U)
    ensures Map(self, tyU, tyE, NonNull(f)).Returned?
    ensures UnwrapOrDefault(Map(self, tyU, tyE, NonNull(f)).value, tyU) == if self.isOk then f(self.value) else tyU.defaultValue
  {
  }
}
