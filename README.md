# Domain primitives of `vehicles`, modelled in Dafny

This project models the generic primitives in `src/Domain/Primitives` of the
`vehicles` repository, a C# domain layer:

- the null guard `Contracts.ThrowIfNull`;
- `Option<T>`, a readonly struct with a tag `_isSome` and a payload `_value`,
  with its factories and the combinators `IsSome`, `IsNone`, `Map` (plain and
  flattening) and `Or` (value and supplier);
- `Result<T, E>`, a readonly struct with `_isOk`, `_value` and `_error`, with
  its factories and the combinators `IsOk`, `IsErr`, `Ok`, `Map` (plain and
  binding), `MapErr`, `Filter`, `Iter`, `UnwrapOr`, `UnwrapOrElse` and
  `UnwrapOrDefault`;
- `Entity`, whose equality and hash are keyed on a `Guid` id;
- `ValueObject`, whose equality and hash come from `GetAtomicValues()`.

Every core file is a set of expressions with no state, so the model is
datatypes, functions and lemmas, one Dafny module per C# file:

| C# file | Dafny module | file |
|---|---|---|
| Contracts.cs | `Contracts` | contracts.dfy |
| Option.cs | `Options` | option.dfy |
| OptionExtensions.cs | `OptionExtensions` | option_extensions.dfy |
| OptionFactories.cs | `OptionFactories` | option_factories.dfy |
| Result.cs | `Results` | result.dfy |
| ResultExtensions.cs | `ResultExtensions` | result_extensions.dfy |
| ResultFactories.cs | `ResultFactories` | result_factories.dfy |
| Entity.cs | `Entities` | entity.dfy |
| ValueObject.cs | `ValueObjects` | value_object.dfy |

The module `Runtime` (runtime.dfy) holds the C# notions the primitives rely on:

- `Nullable<T>` is a reference that may be null.
- `CsType<T>` says which values of a type argument are null and what
  `default(T)` is. `ReferenceType` and `ValueType` build the two kinds.
- `Func<A, B>` and `Func0<B>` are delegates that may be null.
- `Boxed<X>` is an `object` tested with `obj is X x`.
- `Outcome<T>` is an expression that returns a value or throws
  `ArgumentNullException`.
- `Wrap32` is unchecked 32-bit `int` arithmetic.

The structs are modelled as written: `Option<T>` and `Result<T, E>` are
records of their fields, and the slot of the absent variant holds `default`.
A ghost predicate `Valid` describes the shapes the constructors can produce.
Lemmas prove that the constructors, the factories, `Option.Map`,
`Result.Map`, `MapErr`, `Filter` and `Result.Ok()` yield such shapes, and that
on them `Equals` means "same variant and equal payload". The two binding
`Map` overloads return the callback's own value, so their results are valid
exactly when the callback's are.
Because `ThrowIfNull` is modelled for every callback, a null delegate
throws only on the branch that would call it. For example, `None.Map(null)`
is `None`, while `Err(e).UnwrapOrElse(null)` throws.

Equality through `EqualityComparer<T>.Default` and `object.Equals` is Dafny
`==` on the payload type. `HashCode.Combine` is seeded per process and
`Guid.GetHashCode` is opaque, so each hash takes its combiner as a parameter.
The lemmas then prove that equal values hash alike for every combiner.

Where the code departs from the documented intent of these primitives, the
model follows the code:

- `Entity` equality compares only ids, not runtime types. Two subclasses
  sharing an id are equal (`Entities.SubclassIsNotCompared`).
- `ValueObject` equality does not compare types either. All value objects
  with no atomic values are equal (`ValueObjects.EmptyValueObjectsAreEqual`).
- `UnwrapOr` on an error throws when its fallback is null.
- `Option.Map` throws when the callback returns null, because the result is
  rewrapped with `Some`. `Result.Map` performs no such check.

An entity's id has only a private `init` accessor. The model therefore
makes it a field of an immutable datatype value.

## Model

| member | source | states |
|---|---|---|
| Contracts.ThrowIfNull | src/Domain/Primitives/Contracts.cs:5-6 | returns exactly its argument when it is not null, throws `ArgumentNullException` for parameter `value` when it is null, and never returns a null |
| Contracts.Invoke | src/Domain/Primitives/OptionExtensions.cs:14 | `ThrowIfNull(op)(x)`: a null delegate throws before being called, a non-null one yields `op(x)` |
| Contracts.Invoke0 | src/Domain/Primitives/OptionExtensions.cs:24 | `ThrowIfNull(op)()`: a null supplier throws, a non-null one yields its value |
| Runtime.Wrap32 | src/Domain/Primitives/Entity.cs:16 | unchecked `int` arithmetic: the result is in the 32-bit range, congruent to the exact result modulo 2^32, and equal to it when no overflow occurs |
| Options.None | src/Domain/Primitives/Option.cs:6-9 | `Option<T>.None`, the default struct; its cases are stated by `Options.NoneIsDefault` |
| Options.New | src/Domain/Primitives/Option.cs:3-14 | the primary constructor with its two field initialisers; its cases are stated by `Options.ConstructedOptionsAreValid` and `Options.NewOfNullThrows` |
| Options.Some | src/Domain/Primitives/Option.cs:11 | `Option<T>.Some(v)` as `new(v)`; its cases are stated by `Options.SomeOfValue` and `Options.NewOfNullThrows` |
| Options.Equals | src/Domain/Primitives/Option.cs:18-19 | field-wise option equality; stated by `Options.EqualsIffSameVariantAndPayload` and `Options.EqualsIsEquivalence` |
| Options.EqualsObject | src/Domain/Primitives/Option.cs:16 | `Equals(object)`; stated by `Options.EqualsObjectOnlyForOptions` |
| Options.GetHashCode | src/Domain/Primitives/Option.cs:21 | `HashCode.Combine(_isSome, _value)` over a combiner parameter; stated by `Options.EqualOptionsHashAlike` |
| Options.OpEquality | src/Domain/Primitives/Option.cs:23 | `operator ==`; stated by `Options.OperatorsAgreeWithEquals` |
| Options.OpInequality | src/Domain/Primitives/Option.cs:25 | `operator !=`; stated by `Options.OperatorsAgreeWithEquals` |
| Options.NoneIsDefault | src/Domain/Primitives/Option.cs:6-9 | `None` is the default struct: tag false, and a valid option |
| Options.SomeOfValue | src/Domain/Primitives/Option.cs:11-14 | `Some(v)` of a non-null v has tag true and payload v, and is valid |
| Options.NewOfNullThrows | src/Domain/Primitives/Option.cs:13-14 | constructing an option (or `Option<T>.Some`) from null throws `ArgumentNullException` from the guard |
| Options.ConstructedOptionsAreValid | src/Domain/Primitives/Option.cs:13-14 | the constructor throws exactly for null, and otherwise yields a valid option holding its argument |
| Options.EqualsIffSameVariantAndPayload | src/Domain/Primitives/Option.cs:18-19 | two valid options are `Equals` iff they are the same struct, iff their tags agree and, when present, their payloads are equal |
| Options.EqualsIsEquivalence | src/Domain/Primitives/Option.cs:18-19 | option `Equals` is reflexive, symmetric and transitive |
| Options.EqualsObjectOnlyForOptions | src/Domain/Primitives/Option.cs:16 | `Equals(object)` is false for null and for other types, and is `Equals` for a boxed option |
| Options.OperatorsAgreeWithEquals | src/Domain/Primitives/Option.cs:23-25 | `==` is `Equals` and `!=` is its negation |
| Options.EqualOptionsHashAlike | src/Domain/Primitives/Option.cs:21 | options that are `Equals` have the same hash, for every seeded combiner |
| OptionExtensions.IsSome | src/Domain/Primitives/OptionExtensions.cs:5-6 | the tag; stated by `OptionExtensions.IsNoneIsNotIsSome` and `OptionFactories.SomeIsConstructor` |
| OptionExtensions.IsNone | src/Domain/Primitives/OptionExtensions.cs:8-9 | the negated tag; stated by `OptionExtensions.IsNoneIsNotIsSome` and `OptionFactories.NoneIsNone` |
| OptionExtensions.Map | src/Domain/Primitives/OptionExtensions.cs:11-14 | the plain `Map`; its cases are stated by `OptionExtensions.MapPresent` and `OptionExtensions.MapAbsent`, its laws by `OptionExtensions.MapIdentity` and `OptionExtensions.MapComposition` |
| OptionExtensions.FlatMap | src/Domain/Primitives/OptionExtensions.cs:16-18 | the flattening `Map`; its cases are stated by `OptionExtensions.FlatMapCases` |
| OptionExtensions.Or | src/Domain/Primitives/OptionExtensions.cs:20-21 | `Or(T)`; its cases are stated by `OptionExtensions.OrCases` |
| OptionExtensions.OrElse | src/Domain/Primitives/OptionExtensions.cs:23-24 | `Or(Func<T>)`; its cases are stated by `OptionExtensions.OrElseCases` |
| OptionExtensions.IsNoneIsNotIsSome | src/Domain/Primitives/OptionExtensions.cs:5-9 | `IsNone` is always the negation of `IsSome` |
| OptionExtensions.MapPresent | src/Domain/Primitives/OptionExtensions.cs:11-14 | `Some(x).Map(f)` is `Some(f(x))` when f(x) is not null, and throws `ArgumentNullException` when it is; `Some(x).Map(null)` throws in the delegate's guard |
| OptionExtensions.MapAbsent | src/Domain/Primitives/OptionExtensions.cs:11-14 | mapping an absent option gives `None` for every delegate, even a null one, so the delegate is never called |
| OptionExtensions.MapYieldsValid | src/Domain/Primitives/OptionExtensions.cs:11-14 | whatever `Map` returns is a valid option |
| OptionExtensions.MapIdentity | src/Domain/Primitives/OptionExtensions.cs:11-14 | mapping the identity returns a valid option unchanged |
| OptionExtensions.MapComposition | src/Domain/Primitives/OptionExtensions.cs:11-14 | mapping f then g is mapping `g . f`, provided f gives no null on the payload |
| OptionExtensions.FlatMapCases | src/Domain/Primitives/OptionExtensions.cs:16-18 | the flattening `Map(g)` returns `g(x)` itself for a present payload, throws for a null g, and returns `None` for an absent option whatever g is |
| OptionExtensions.MapIsFlatMapOfWrapped | src/Domain/Primitives/OptionExtensions.cs:11-18 | the plain `Map(f)` equals the flattening `Map` of `x => Some(f(x))` when f(x) is not null |
| OptionExtensions.OrCases | src/Domain/Primitives/OptionExtensions.cs:20-21 | `Some(x).Or(d)` is x and `None.Or(d)` is d |
| OptionExtensions.OrElseCases | src/Domain/Primitives/OptionExtensions.cs:23-24 | `Or(supplier)` returns the payload without touching the supplier, even a null one; on `None` it calls a non-null supplier and throws for a null one |
| OptionExtensions.OrElseOfConstantIsOr | src/Domain/Primitives/OptionExtensions.cs:20-24 | `Or(() => d)` agrees with `Or(d)` on every option |
| OptionExtensions.MapThenOr | src/Domain/Primitives/OptionExtensions.cs:11-21 | the mapping law: `Some(x).Map(f).Or(d) == f(x)` and `None.Map(f).Or(d) == d` |
| OptionFactories.Some | src/Domain/Primitives/OptionFactories.cs:5-6 | the static `Some<T>`; stated by `OptionFactories.SomeIsConstructor` |
| OptionFactories.None | src/Domain/Primitives/OptionFactories.cs:8-9 | the static `None<T>`; stated by `OptionFactories.NoneIsNone` |
| OptionFactories.SomeIsConstructor | src/Domain/Primitives/OptionFactories.cs:5-6 | the factory `Some` is `new Option<T>(v)`: `IsSome` for a non-null v, throws for null |
| OptionFactories.NoneIsNone | src/Domain/Primitives/OptionFactories.cs:8-9 | the factory `None` is `Option<T>.None`, which is `IsNone` |
| OptionFactories.FactoryEquality | src/Domain/Primitives/OptionFactories.cs:5-9 | `None() == None()`, `Some(a) == Some(b)` iff a == b, and `Some(a) != None()` |
| OptionFactories.StringExamples | tests/Domain.UnitTests/Primitives/OptionTests.cs:9-62 | the string cases of the option tests: `Some("test1") != Some("test2")`, `Some("test") != None`, `None == None`, `Or` fallbacks, `Some(null)` throws |
| Results.Ok | src/Domain/Primitives/Result.cs:10-15 | `Result<T, E>.Ok` through the private value constructor; its cases are stated by `Results.OkShape` |
| Results.Err | src/Domain/Primitives/Result.cs:17-21 | `Result<T, E>.Err` through the private error constructor; its cases are stated by `Results.ErrShape` |
| Results.Equals | src/Domain/Primitives/Result.cs:27-30 | three-field result equality; stated by `Results.EqualsIffSameVariantAndPayload` and `Results.FactoriesAreInjective` |
| Results.EqualsObject | src/Domain/Primitives/Result.cs:25 | `Equals(object)`; stated by `Results.EqualsObjectOnlyForResults` |
| Results.GetHashCode | src/Domain/Primitives/Result.cs:23 | `HashCode.Combine(_isOk, _value, _error)` over a combiner parameter; stated by `Results.EqualResultsHashAlike` |
| Results.OpEquality | src/Domain/Primitives/Result.cs:32 | `operator ==`; stated by `Results.OperatorsAgreeWithEquals` |
| Results.OpInequality | src/Domain/Primitives/Result.cs:34 | `operator !=`; stated by `Results.OperatorsAgreeWithEquals` |
| Results.OkShape | src/Domain/Primitives/Result.cs:10-15 | `Ok(v)` has tag true, value v and the default error, accepts a null v, and is valid |
| Results.ErrShape | src/Domain/Primitives/Result.cs:17-21 | `Err(e)` has tag false, error e and the default value, accepts a null e, and is valid |
| Results.EqualsIffSameVariantAndPayload | src/Domain/Primitives/Result.cs:27-30 | two valid results are `Equals` iff tag, value and error all agree, iff they are the same variant with an equal payload of that variant |
| Results.FactoriesAreInjective | src/Domain/Primitives/Result.cs:36-38 | `Ok(a) == Ok(b)` iff a == b, `Err(e1) == Err(e2)` iff e1 == e2, and `Ok(v) != Err(e)` |
| Results.EqualsObjectOnlyForResults | src/Domain/Primitives/Result.cs:25 | `Equals(object)` is false for null and for other types, and is `Equals` for a boxed result |
| Results.OperatorsAgreeWithEquals | src/Domain/Primitives/Result.cs:32-34 | `==` is `Equals` and `!=` is its negation |
| Results.EqualResultsHashAlike | src/Domain/Primitives/Result.cs:23 | results that are `Equals` have the same hash, for every seeded combiner |
| ResultExtensions.UnwrapOrDefault | src/Domain/Primitives/ResultExtensions.cs:5-6 | stated by `ResultExtensions.UnwrapOrDefaultCases` |
| ResultExtensions.UnwrapOr | src/Domain/Primitives/ResultExtensions.cs:8-9 | stated by `ResultExtensions.UnwrapOrCases` |
| ResultExtensions.UnwrapOrElse | src/Domain/Primitives/ResultExtensions.cs:11-12 | stated by `ResultExtensions.UnwrapOrElseCases` |
| ResultExtensions.Filter | src/Domain/Primitives/ResultExtensions.cs:14-18 | stated by `ResultExtensions.FilterCases`, `ResultExtensions.FilterOfErrIgnoresPredicate` and `ResultExtensions.OptionBridgesYieldValid` |
| ResultExtensions.IsOk | src/Domain/Primitives/ResultExtensions.cs:20-21 | the tag; stated by `ResultExtensions.IsErrIsNotIsOk` and `ResultFactories.FactoryResultsHaveTheirTag` |
| ResultExtensions.IsErr | src/Domain/Primitives/ResultExtensions.cs:23-24 | the negated tag; stated by `ResultExtensions.IsErrIsNotIsOk` |
| ResultExtensions.Ok | src/Domain/Primitives/ResultExtensions.cs:26-27 | the bridge to `Option`; stated by `ResultExtensions.OkBridgesToOption` and `ResultExtensions.OptionBridgesYieldValid` |
| ResultExtensions.Map | src/Domain/Primitives/ResultExtensions.cs:29-34 | stated by `ResultExtensions.MapCases`, `ResultExtensions.MapIdentity` and `ResultExtensions.MapComposition` |
| ResultExtensions.FlatMap | src/Domain/Primitives/ResultExtensions.cs:36-39 | the binding `Map`; stated by `ResultExtensions.FlatMapCases` and `ResultExtensions.FlatMapAssociative` |
| ResultExtensions.MapErr | src/Domain/Primitives/ResultExtensions.cs:41-46 | stated by `ResultExtensions.MapErrCases` |
| ResultExtensions.Iter | src/Domain/Primitives/ResultExtensions.cs:48-49 | stated by `ResultExtensions.IterCases` |
| ResultExtensions.UnwrapOrDefaultCases | src/Domain/Primitives/ResultExtensions.cs:5-6 | `Ok(v)` unwraps to v and `Err(e)` to `default(T)`; on a valid result the value is the value field |
| ResultExtensions.UnwrapOrCases | src/Domain/Primitives/ResultExtensions.cs:8-9 | `Ok(v).UnwrapOr(d)` is v for any d, null included; `Err(e).UnwrapOr(d)` is d, and throws for a null d |
| ResultExtensions.UnwrapOrElseCases | src/Domain/Primitives/ResultExtensions.cs:11-12 | `Ok(v).UnwrapOrElse(op)` is v without touching op; `Err(e).UnwrapOrElse(op)` is `op(e)`, and throws for a null op |
| ResultExtensions.UnwrapOrIsUnwrapOrElseOfConstant | src/Domain/Primitives/ResultExtensions.cs:8-12 | for a non-null d, `UnwrapOr(d)` agrees with `UnwrapOrElse(_ => d)` on every result |
| ResultExtensions.FilterCases | src/Domain/Primitives/ResultExtensions.cs:14-18 | unless the result is `Ok(null)`, `Filter(p)` is `Some(v)` iff the result is `Ok(v)` and p(v) holds, and `None` otherwise; on `Ok(null)` it throws when p accepts null and is `None` when p rejects it; on `Ok` a null p throws |
| ResultExtensions.FilterOfErrIgnoresPredicate | src/Domain/Primitives/ResultExtensions.cs:14-18 | on an error, `Filter` is `None` for every predicate, null included, so the predicate is never evaluated |
| ResultExtensions.FilterAcceptingAllIsOk | src/Domain/Primitives/ResultExtensions.cs:14-27 | `Filter(_ => true)` is the bridge `Ok()` on every result |
| ResultExtensions.OptionBridgesYieldValid | src/Domain/Primitives/ResultExtensions.cs:14-27 | whatever `Filter` and `Ok()` return is a valid option, for every result and predicate |
| ResultExtensions.IsErrIsNotIsOk | src/Domain/Primitives/ResultExtensions.cs:20-24 | `IsErr` is always the negation of `IsOk` |
| ResultExtensions.OkBridgesToOption | src/Domain/Primitives/ResultExtensions.cs:26-27 | `Ok(v).Ok()` is `Some(v)` for a non-null v and throws for a null one; `Err(e).Ok()` is `None` |
| ResultExtensions.MapCases | src/Domain/Primitives/ResultExtensions.cs:29-34 | `Ok(v).Map(f)` is `Ok(f(v))` with no null check of f(v), `Ok(v).Map(null)` throws, and `Err(e).Map(op)` is `Err(e)` for every op |
| ResultExtensions.MapIdentity | src/Domain/Primitives/ResultExtensions.cs:29-46 | mapping the identity with `Map` or with `MapErr` returns a valid result unchanged |
| ResultExtensions.MapComposition | src/Domain/Primitives/ResultExtensions.cs:29-34 | mapping f then g is mapping `g . f`, on every result |
| ResultExtensions.CombinatorsPreserveValid | src/Domain/Primitives/ResultExtensions.cs:29-46 | whatever `Map` and `MapErr` return is a valid result, whatever the input |
| ResultExtensions.MapThenUnwrapOrDefault | src/Domain/Primitives/ResultExtensions.cs:5-34 | `Ok(v).Map(f).UnwrapOrDefault()` is f(v), and an error maps to `default(U)` |
| ResultExtensions.FlatMapCases | src/Domain/Primitives/ResultExtensions.cs:36-39 | the binding `Map(g)` turns `Ok(v)` into `g(v)`, throws on `Ok(v)` for a null g, and short-circuits `Err(e)` to `Err(e)` for every g |
| ResultExtensions.MapIsFlatMapOfOk | src/Domain/Primitives/ResultExtensions.cs:29-39 | `Map(f)` equals the binding `Map` of `x => Ok(f(x))` on every result |
| ResultExtensions.FlatMapOkIsIdentity | src/Domain/Primitives/ResultExtensions.cs:36-39 | binding with `Ok` returns a valid result unchanged |
| ResultExtensions.FlatMapAssociative | src/Domain/Primitives/ResultExtensions.cs:36-39 | binding f then g is binding the composed continuation |
| ResultExtensions.MapErrCases | src/Domain/Primitives/ResultExtensions.cs:41-46 | `Ok(v).MapErr(op)` is `Ok(v)` for every op, `Err(e).MapErr(g)` is `Err(g(e))`, and `Err(e).MapErr(null)` throws |
| ResultExtensions.IterCases | src/Domain/Primitives/ResultExtensions.cs:48-49 | `Iter` is `[v]` for `Ok(v)` and empty for an error, so it has at most one element, the one `Ok()` wraps |
| ResultFactories.StringOk | src/Domain/Primitives/ResultFactories.cs:5-6 | `Ok<T>` with a `string` error; stated by `ResultFactories.StringFactoriesAreStructFactories` |
| ResultFactories.StringErr | src/Domain/Primitives/ResultFactories.cs:8-9 | `Err<T>` with a `string` error; stated by `ResultFactories.StringFactoriesAreStructFactories` |
| ResultFactories.GenericOk | src/Domain/Primitives/ResultFactories.cs:11-12 | `Ok<T, E>`; stated by `ResultFactories.GenericFactoriesDelegate` |
| ResultFactories.GenericErr | src/Domain/Primitives/ResultFactories.cs:14-15 | `Err<T, E>`; stated by `ResultFactories.GenericFactoriesDelegate` |
| ResultFactories.StringFactoriesAreStructFactories | src/Domain/Primitives/ResultFactories.cs:5-9 | `Ok<T>(v)` and `Err<T>(s)` are `Result<T, string>.Ok(v)` and `.Err(s)`, with a null error or a default value in the other slot |
| ResultFactories.GenericFactoriesDelegate | src/Domain/Primitives/ResultFactories.cs:11-15 | the generic `Ok<T, E>` and `Err<T, E>` are the struct's own factories |
| ResultFactories.FactoryResultsHaveTheirTag | src/Domain/Primitives/ResultFactories.cs:5-15 | a factory-built `Ok` is `IsOk`, a factory-built `Err` is `IsErr`, and both are valid |
| ResultFactories.FactoryResultsEqualByPayload | src/Domain/Primitives/ResultFactories.cs:5-9 | factory results are equal iff their payloads are, and an `Ok` never equals an `Err` |
| ResultFactories.IntExamples | tests/Domain.UnitTests/Primitives/ResultTests.cs:7-43 | the concrete cases of the result tests: `Ok(5) == Ok(5)`, `Ok(5) != Ok(6)`, `Err("Error") == Err("Error")`, `Err("Error") != Err("Error1")`, `Ok(5) != Err("Error")` |
| ResultFactories.ExtensionExamples | tests/Domain.UnitTests/Primitives/ResultExtensionsTests.cs:23-99 | the concrete cases of the result-extension tests: `IsOk`, `IsErr`, `Ok()`, `UnwrapOrDefault`, `Filter`, `Iter`, `UnwrapOr`, and `UnwrapOrElse` with the length helper |
| Entities.OpEquality | src/Domain/Primitives/Entity.cs:7-8 | `operator ==` on nullable entities; stated by `Entities.OpEqualityCases` |
| Entities.OpInequality | src/Domain/Primitives/Entity.cs:10 | `operator !=`; stated by `Entities.OpInequalityNegates` |
| Entities.Equals | src/Domain/Primitives/Entity.cs:14 | `Equals(Entity?)`; stated by `Entities.EqualsIffSameId` and `Entities.EqualsIsEquivalence` |
| Entities.EqualsObject | src/Domain/Primitives/Entity.cs:12 | `Equals(object)`; stated by `Entities.EqualsObjectOnlyForEntities` |
| Entities.GetHashCode | src/Domain/Primitives/Entity.cs:16 | the hash is `Id.GetHashCode() * 41` wrapped to 32 bits, so it is a 32-bit value |
| Entities.OpEqualityCases | src/Domain/Primitives/Entity.cs:7-8 | `left == right` iff both are present with equal ids, so `null == null` is false; with a present left side it is `Equals` |
| Entities.OpInequalityNegates | src/Domain/Primitives/Entity.cs:10 | `!=` is the exact negation of `==`, so `null != null` is true |
| Entities.EqualsObjectOnlyForEntities | src/Domain/Primitives/Entity.cs:12 | `Equals(object)` is `Equals` for an entity and false for null or any other type |
| Entities.EqualsIffSameId | src/Domain/Primitives/Entity.cs:14 | `Equals(other)` iff other is present and has the same id |
| Entities.SameIdSameHash | src/Domain/Primitives/Entity.cs:16 | entities with the same id have the same hash, for every Guid hash |
| Entities.DifferentIdsNeverEqual | src/Domain/Primitives/Entity.cs:7-14 | entities with different ids are unequal under `==`, `!=` and both `Equals`, whatever their subclasses |
| Entities.SubclassIsNotCompared | src/Domain/Primitives/Entity.cs:7-14 | two subclasses sharing an id are equal under `==` and both `Equals`: no runtime-type check |
| Entities.EqualsIsEquivalence | src/Domain/Primitives/Entity.cs:14-16 | entity `Equals` is reflexive, symmetric and transitive, and equal entities hash alike |
| ValueObjects.ValuesAreEqual | src/Domain/Primitives/ValueObject.cs:14-15 | `SequenceEqual` of the atomic values; stated by `ValueObjects.EqualsIffSameAtomicValues` |
| ValueObjects.Equals | src/Domain/Primitives/ValueObject.cs:7 | `Equals(ValueObject?)`; stated by `ValueObjects.EqualsNullIsFalse`, `ValueObjects.EqualsIffSameAtomicValues` and `ValueObjects.EqualsIsEquivalence` |
| ValueObjects.EqualsObject | src/Domain/Primitives/ValueObject.cs:9 | `Equals(object)`; stated by `ValueObjects.EqualsObjectOnlyForValueObjects` |
| ValueObjects.Aggregate | src/Domain/Primitives/ValueObject.cs:12 | LINQ `Aggregate` as a left fold; stated by `ValueObjects.AggregateAppend` |
| ValueObjects.GetHashCode | src/Domain/Primitives/ValueObject.cs:11-12 | the fold of `HashCode.Combine` from 0; stated by `ValueObjects.HashIsLeftFoldFromZero` and `ValueObjects.EqualValueObjectsHashAlike` |
| ValueObjects.OpEquality | src/Domain/Primitives/ValueObject.cs:17 | `operator ==`; stated by `ValueObjects.OperatorsAgreeWithEquals` |
| ValueObjects.OpInequality | src/Domain/Primitives/ValueObject.cs:19 | `operator !=`; stated by `ValueObjects.OperatorsAgreeWithEquals` |
| ValueObjects.EqualsNullIsFalse | src/Domain/Primitives/ValueObject.cs:7 | `Equals(null)` is false |
| ValueObjects.EqualsObjectOnlyForValueObjects | src/Domain/Primitives/ValueObject.cs:9 | `Equals(object)` holds only for a value object with equal atomic values, with no runtime-type check |
| ValueObjects.SequenceEqual | src/Domain/Primitives/ValueObject.cs:14-15 | stepping through both sequences matches exactly when they have the same length and are equal element by element, in order |
| ValueObjects.SequenceEqualIsEquality | src/Domain/Primitives/ValueObject.cs:14-15 | `SequenceEqual` is sequence equality |
| ValueObjects.EqualsIffSameAtomicValues | src/Domain/Primitives/ValueObject.cs:7-15 | `Equals(other)` iff both atomic-value sequences have the same length and are equal element by element, in order |
| ValueObjects.EqualsIsEquivalence | src/Domain/Primitives/ValueObject.cs:14-15 | value-object equality is reflexive, symmetric and transitive |
| ValueObjects.AggregateAppend | src/Domain/Primitives/ValueObject.cs:11-12 | `Aggregate` is a left fold: folding one more value combines it into the fold of the values before it |
| ValueObjects.HashIsLeftFoldFromZero | src/Domain/Primitives/ValueObject.cs:11-12 | the hash of no values is 0, and the hash of `xs + [x]` is `Combine(hash(xs), x)` |
| ValueObjects.EqualValueObjectsHashAlike | src/Domain/Primitives/ValueObject.cs:11-15 | value objects that are `Equals` have the same hash, for every seeded combiner |
| ValueObjects.EmptyValueObjectsAreEqual | src/Domain/Primitives/ValueObject.cs:11-15 | value objects with no atomic values are equal whatever their subclasses, and hash to 0 |
| ValueObjects.OperatorsAgreeWithEquals | src/Domain/Primitives/ValueObject.cs:17-19 | `==` is `left.Equals(right)` and `!=` is its negation |
| ValueObjects.TestValueObjectExamples | tests/Domain.UnitTests/Primitives/ValueObjectTests.cs:7-71 | on the test fixture `V(int, string)`, whose atomic values are its two fields: `V(1, "test")` equals `V(1, "test")` under `Equals`, `Equals(object)` and `==`; `V(1, "test1")` differs from `V(1, "test2")` and from `V(2, "test1")` |

## Left out

- Concrete hash values are not modelled. `HashCode.Combine` is seeded per process and `Guid.GetHashCode` is opaque, so both are parameters. Only "equal values hash alike" is proved. The test that two different value objects hash differently holds only with high probability, so it is not modelled.
- `Guid.NewGuid()` is random and is not modelled. An id is any 128-bit value.
- Callbacks are total Dafny functions. Exceptions thrown inside a callback and its side effects are not modelled. Only a null delegate, caught by `ThrowIfNull`, is.
- `EqualityComparer<T>.Default` and `object.Equals` on payloads and atoms are Dafny `==`. Payload types whose own `Equals` is not structural are not modelled.
- `IEnumerable` laziness is not modelled. `Iter` and `GetAtomicValues()` are finite sequences, and `SequenceEqual` and `Aggregate` are recursive functions over them.
- Runtime type tests are modelled only as far as `obj is X`: null, an X, or another type (`Boxed`).
- A null left operand of `ValueObject.==` throws `NullReferenceException` in the source. The model's left operand cannot be null, so that exception is not modelled.
- The test helpers built on `double.Parse`, `checked` overflow and `int.ToString` are not modelled (`Square`, `SqThenToString` and the `MapErr` string test). The length helper `Count` is a total lambda that gives 0 for null, where the source would throw `NullReferenceException`; only non-null strings reach it in these tests.
- `src/WebApi/Program.cs` is host wiring with no logic.
- The `Domain.Result`, `Domain.Error` and `Domain.Entity` types used by tests/Domain.UnitTests/TestResult.cs, TestError.cs and TestEntity.cs are not part of this model: they belong to the namespace `Domain`, not `Domain.Primitives`. `Domain.Primitives.Error`, used only by tests/Domain.UnitTests/Primitives/ErrorTests.cs, is not modelled: none of the nine files above refers to it.
