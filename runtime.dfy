/** The few notions of the C# runtime that the domain primitives depend on:
    references that may be null, `default(T)`, an `object` inspected with
    `obj is X x`, delegates, the exception the null guard raises, and 32-bit
    wrap-around of `int` arithmetic. */
module Runtime {

  /** A C# reference of static type T: either null or a reference to a T. */
  datatype Nullable<T> = Null | NonNull(value: T)

  /** What generic C# code can observe of a type argument T: which of its
      values are null and what `default(T)` is. */
  datatype CsType<!T> = CsType(isNull: T -> bool, defaultValue: T)

  /** A reference type: null is the only null value, and it is the default. */
  function ReferenceType<T>(): CsType<Nullable<T>> {
    CsType((r: Nullable<T>) => r.Null?, Null)
  }

  /** A value type: no value is null, and `default(T)` is the given zero. */
  function ValueType<T>(zero: T): CsType<T> {
    CsType(_ => false, zero)
  }

  /** `string`, a reference type. */
  type CsString = Nullable<string>

  function StringType(): CsType<CsString> { ReferenceType() }

  /** `int`, a value type whose default is 0. */
  function IntType(): CsType<int> { ValueType(0) }

  /** `Func<A, B>` and `Func<B>`: delegates are references, so they may be null. */
  type Func<!A, B> = Nullable<A -> B>
  type Func0<B> = Nullable<() -> B>

  /** An `object` reference tested with `obj is X x`: null, an X, or an
      instance of some unrelated type. */
  datatype Boxed<X> = BoxedNull | Boxed(value: X) | BoxedOther

  /** The only exception the primitives raise themselves; `paramName` is the
      name the guard reports. */
  datatype Exception = ArgumentNullException(paramName: string)

  /** How a C# expression ends: with a value, or by throwing. */
  datatype Outcome<T> = Returned(value: T) | Threw(exception: Exception)

  const Int32Modulus: int := 0x1_0000_0000

  predicate IsInt32(x: int) { -0x8000_0000 <= x < 0x8000_0000 }

  /** Unchecked C# `int` arithmetic: the mathematical result reduced to the
      32-bit two's complement range. */
  function Wrap32(x: int): (r: int)
    ensures IsInt32(r)
    ensures (r - x) % Int32Modulus == 0
    ensures IsInt32(x) ==> r == x
  {
    (x + 0x8000_0000) % Int32Modulus - 0x8000_0000
  }
}
