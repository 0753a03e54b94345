/** The null guard of Contracts.cs, and the one way the other primitives use
    it on a callback: guard the delegate, then invoke it. */
module Contracts {
  import opened Runtime

  /** `ThrowIfNull(value)`: `value ?? throw new ArgumentNullException(nameof(value))`. */
  function ThrowIfNull<T>(ty: CsType<T>, value: T): (r: Outcome<T>)
    ensures r.Returned? <==> !ty.isNull(value)
    ensures r.Returned? ==> r.value == value && !ty.isNull(r.value)
    ensures r.Threw? ==> r.exception == ArgumentNullException("value")
  {
    if ty.isNull(value) then Threw(ArgumentNullException("value")) else Returned(value)
  }

  /** `Contracts.ThrowIfNull(op)(arg)`: a null delegate throws before any call. */
  function Invoke<A, B>(op: Func<A, B>, arg: A): (r: Outcome<B>)
    ensures op.Null? ==> r == Threw(ArgumentNullException("value"))
    ensures op.NonNull? ==> r == Returned(op.value(arg))
  {
    match ThrowIfNull(ReferenceType(), op)
    case Threw(e) => Threw(e)
    case Returned(f) => Returned(f.value(arg))
  }

  /** `Contracts.ThrowIfNull(op)()` for a supplier `Func<B>`. */
  function Invoke0<B>(op: Func0<B>): (r: Outcome<B>)
    ensures op.Null? ==> r == Threw(ArgumentNullException("value"))
    ensures op.NonNull? ==> r == Returned(op.value())
  {
    match ThrowIfNull(ReferenceType(), op)
    case Threw(e) => Threw(e)
    case Returned(f) => Returned(f.value())
  }
}
