/** ValueObject.cs: the abstract base of value objects, whose equality and
    hash are derived from the ordered sequence `GetAtomicValues()`. */
module ValueObjects {
  import opened Runtime

  /** A value object: the concrete subclass it was created as, and the atomic
      values its `GetAtomicValues()` yields, in order. */
  datatype ValueObject<A> = ValueObject(typeName: string, atomicValues: seq<A>)

  /** `Enumerable.SequenceEqual`: walk both sequences in step; they match when
      they end together and every pair of elements is equal. */
  function SequenceEqual<A(==)>(xs: seq<A>, ys: seq<A>): (eq: bool)
    ensures eq <==> |xs| == |ys| && forall i :: 0 <= i < |xs| ==> xs[i] == ys[i]
  {
    if xs == [] || ys == [] then
      xs == [] && ys == []
    else
      xs[0] == ys[0] && SequenceEqual(xs[1..], ys[1..])
  }

  /** `ValuesAreEqual(other)`: the two atomic-value sequences are `SequenceEqual`. */
  predicate ValuesAreEqual<A(==)>(self: ValueObject<A>, other: ValueObject<A>) {
    SequenceEqual(self.atomicValues, other.atomicValues)
  }

  /** `Equals(ValueObject? other)`: other is present and its values are equal. */
  predicate Equals<A(==)>(self: ValueObject<A>, other: Nullable<ValueObject<A>>) {
    other.NonNull? && ValuesAreEqual(self, other.value)
  }

  /** `Equals(object? obj)`: obj is a value object and `Equals` to this one. */
  predicate EqualsObject<A(==)>(self: ValueObject<A>, obj: Boxed<ValueObject<A>>) {
    obj.Boxed? && Equals(self, NonNull(obj.value))
  }

  /** `Enumerable.Aggregate(seed, func)`: a left fold. */
  function Aggregate<A>(seed: int, xs: seq<A>, combine: (int, A) -> int): int
    decreases |xs|
  {
    if xs == [] then seed else Aggregate(combine(seed, xs[0]), xs[1..], combine)
  }

  /** `GetHashCode()`: `GetAtomicValues().Aggregate(default(int), HashCode.Combine)`,
      with the seeded `HashCode.Combine` as a parameter. */
  function GetHashCode<A>(self: ValueObject<A>, combine: (int, A) -> int): int {
    Aggregate(0, self.atomicValues, combine)
  }

  /** `operator ==`: `left.Equals(right)`. A null left operand, which throws
      `NullReferenceException` in the source, is not representable here. */
  predicate OpEquality<A(==)>(left: ValueObject<A>, right: Nullable<ValueObject<A>>) {
    Equals(left, right)
  }

  /** `operator !=`: `!(left == right)`. */
  predicate OpInequality<A(==)>(left: ValueObject<A>, right: Nullable<ValueObject<A>>) {
    !OpEquality(left, right)
  }

  /** `SequenceEqual` is exactly sequence equality. */
  lemma SequenceEqualIsEquality<A>(xs: seq<A>, ys: seq<A>)
    ensures SequenceEqual(xs, ys) <==> xs == ys
  {
  }

  /** Appending one value folds it into the running hash: the hash is the
      left fold of `combine` over the values. */
  lemma {:induction false} AggregateAppend<A>(seed: int, xs: seq<A>, x: A, combine: (int, A) -> int)
    ensures Aggregate(seed, xs + [x], combine) == combine(Aggregate(seed, xs, combine), x)
    decreases |xs|
  {
    if xs != [] {
      assert (xs + [x])[1..] == xs[1..] + [x];
      AggregateAppend(combine(seed, xs[0]), xs[1..], x, combine);
    }
  }

  /** The hash of a value object is the left fold of `HashCode.Combine` from 0:
      no values hash to 0, and one more value is combined into the hash of
      the ones before it. */
  lemma HashIsLeftFoldFromZero<A>(typeName: string, xs: seq<A>, x: A, combine: (int, A) -> int)
    ensures GetHashCode(ValueObject(typeName, []), combine) == 0
    ensures GetHashCode(ValueObject(typeName, xs + [x]), combine)
         == combine(GetHashCode(ValueObject(typeName, xs), combine), x)
  {
    AggregateAppend(0, xs, x, combine);
  }

  /** `Equals(null)` is false. */
  lemma EqualsNullIsFalse<A>(self: ValueObject<A>)
    ensures !Equals(self, Null)
  {
  }

  /** `Equals(other)` holds iff both atomic-value sequences have the same
      length and are equal element by element, in order. */
  lemma EqualsIffSameAtomicValues<A>(self: ValueObject<A>, other: ValueObject<A>)
    ensures Equals(self, NonNull(other)) <==> self.atomicValues == other.atomicValues
    ensures Equals(self, NonNull(other)) <==>
      |self.atomicValues| == |other.atomicValues| &&
      forall i :: 0 <= i < |self.atomicValues| ==> self.atomicValues[i] == other.atomicValues[i]
  {
  }

  /** `Equals(object)` holds only for a value object with equal atomic values;
      the subclass is not compared. */
  lemma EqualsObjectOnlyForValueObjects<A>(self: ValueObject<A>, other: ValueObject<A>)
    ensures EqualsObject(self, Boxed(other)) <==> self.atomicValues == other.atomicValues
    ensures !EqualsObject(self, BoxedNull) && !EqualsObject(self, BoxedOther)
  {
  }

  /** `==` is `Equals` and `!=` its negation. */
  lemma OperatorsAgreeWithEquals<A>(left: ValueObject<A>, right: Nullable<ValueObject<A>>)
    ensures OpEquality(left, right) <==> Equals(left, right)
    ensures OpInequality(left, right) <==> !Equals(left, right)
  {
  }

  /** Equal value objects hash alike, whatever the combiner's seed. */
  lemma EqualValueObjectsHashAlike<A>(a: ValueObject<A>, b: ValueObject<A>, combine: (int, A) -> int)
    requires Equals(a, NonNull(b))
    ensures GetHashCode(a, combine) == GetHashCode(b, combine)
  {
    SequenceEqualIsEquality(a.atomicValues, b.atomicValues);
  }

  /** Value objects without atomic values are all equal to each other,
      whatever their subclasses, and hash to 0. */
  lemma EmptyValueObjectsAreEqual<A>(typeA: string, typeB: string, combine: (int, A) -> int)
    ensures var none: seq<A> := []; Equals(ValueObject(typeA, none), NonNull(ValueObject(typeB, none)))
    ensures var none: seq<A> := []; GetHashCode(ValueObject(typeA, none), combine) == 0
  {
  }

  /** Value-object equality is reflexive, symmetric and transitive. */
  lemma EqualsIsEquivalence<A>(a: ValueObject<A>, b: ValueObject<A>, c: ValueObject<A>)
    ensures Equals(a, NonNull(a))
    ensures Equals(a, NonNull(b)) ==> Equals(b, NonNull(a))
    ensures Equals(a, NonNull(b)) && Equals(b, NonNull(c)) ==> Equals(a, NonNull(c))
  {
  }

  /** The atoms of the value object in the tests: an `int` and a `string`. */
  datatype Atom = IntAtom(i: int) | StringAtom(s: string)

  function TestValueObject(value1: int, value2: string): ValueObject<Atom> {
    ValueObject("TestValueObject", [IntAtom(value1), StringAtom(value2)])
  }

  /** The concrete cases of the value-object tests. */
  lemma TestValueObjectExamples()
    ensures Equals(TestValueObject(1, "test"), NonNull(TestValueObject(1, "test")))
    ensures EqualsObject(TestValueObject(1, "test"), Boxed(TestValueObject(1, "test")))
    ensures OpEquality(TestValueObject(1, "test"), NonNull(TestValueObject(1, "test")))
    ensures !Equals(TestValueObject(1, "test1"), NonNull(TestValueObject(1, "test2")))
    ensures !Equals(TestValueObject(1, "test1"), NonNull(TestValueObject(2, "test1")))
    ensures OpInequality(TestValueObject(1, "test1"), NonNull(TestValueObject(1, "test2")))
  {
    assert TestValueObject(1, "test1").atomicValues[1] != TestValueObject(1, "test2").atomicValues[1];
  }
}
