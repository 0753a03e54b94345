/** Entity.cs: the abstract base of entities, whose equality and hash are
    keyed on the `Guid` id alone. */
module Entities {
  import opened Runtime

  /** A 128-bit globally unique identifier, compared by value. */
  newtype Guid = x: int | 0 <= x < 0x1_0000_0000_0000_0000_0000_0000_0000_0000

  /** An entity: the concrete subclass it was created as, and the id given to
      the primary constructor. The id has a private `init` accessor only, so
      nothing can reassign it after construction. */
  datatype Entity = Entity(typeName: string, id: Guid)

  /** `operator ==(Entity? left, Entity? right)`: both present and the same id.
      Two nulls are not equal. */
  predicate OpEquality(left: Nullable<Entity>, right: Nullable<Entity>) {
    left.NonNull? && right.NonNull? && left.value.id == right.value.id
  }

  /** `operator !=`: `!(left == right)`. */
  predicate OpInequality(left: Nullable<Entity>, right: Nullable<Entity>) {
    !OpEquality(left, right)
  }

  /** `Equals(Entity? other)`: other is present and has the same id. */
  predicate Equals(self: Entity, other: Nullable<Entity>) {
    other.NonNull? && self.id == other.value.id
  }

  /** `Equals(object? obj)`: obj is an entity and `Equals` to this one. */
  predicate EqualsObject(self: Entity, obj: Boxed<Entity>) {
    obj.Boxed? && Equals(self, NonNull(obj.value))
  }

  /** `GetHashCode()`: `Id.GetHashCode() * 41` in unchecked 32-bit arithmetic;
      the Guid's own hash is a parameter. */
  function GetHashCode(self: Entity, guidHash: Guid -> int): (h: int)
    ensures IsInt32(h)
    ensures (h - guidHash(self.id) * 41) % Int32Modulus == 0
  {
    Wrap32(guidHash(self.id) * 41)
  }

  /** `Equals(other)` holds exactly for a present entity with the same id. */
  lemma EqualsIffSameId(self: Entity, other: Entity)
    ensures Equals(self, NonNull(other)) <==> self.id == other.id
    ensures !Equals(self, Null)
  {
  }

  /** `Equals(object)` holds only for an entity that is `Equals` to this one. */
  lemma EqualsObjectOnlyForEntities(self: Entity, other: Entity)
    ensures EqualsObject(self, Boxed(other)) <==> Equals(self, NonNull(other))
    ensures !EqualsObject(self, BoxedNull) && !EqualsObject(self, BoxedOther)
  {
  }

  /** `==` holds exactly when both sides are present with equal ids, so
      `null == null` is false; with a present left side it is `Equals`. */
  lemma OpEqualityCases(left: Nullable<Entity>, right: Nullable<Entity>)
    ensures OpEquality(left, right) <==> left.NonNull? && right.NonNull? && left.value.id == right.value.id
    ensures !OpEquality(Null, Null)
    ensures left.NonNull? ==> (OpEquality(left, right) <==> Equals(left.value, right))
  {
  }

  /** `!=` is the exact negation of `==`, so `null != null` is true. */
  lemma OpInequalityNegates(left: Nullable<Entity>, right: Nullable<Entity>)
    ensures OpInequality(left, right) <==> !OpEquality(left, right)
    ensures OpInequality(Null, Null)
  {
  }

  /** Entities with the same id hash alike, whatever the Guid hash is. */
  lemma SameIdSameHash(a: Entity, b: Entity, guidHash: Guid -> int)
    requires a.id == b.id
    ensures GetHashCode(a, guidHash) == GetHashCode(b, guidHash)
  {
  }

  /** Entities with different ids are never equal, whatever their subclasses,
      under `==`, `!=`, and both `Equals`. */
  lemma DifferentIdsNeverEqual(a: Entity, b: Entity)
    requires a.id != b.id
    ensures !OpEquality(NonNull(a), NonNull(b)) && OpInequality(NonNull(a), NonNull(b))
    ensures !Equals(a, NonNull(b)) && !EqualsObject(a, Boxed(b))
  {
  }

  /** The runtime type is not compared: instances of two different subclasses
      that share an id are equal under every form of equality. */
  lemma SubclassIsNotCompared(id: Guid, typeA: string, typeB: string)
    ensures OpEquality(NonNull(Entity(typeA, id)), NonNull(Entity(typeB, id)))
    ensures Equals(Entity(typeA, id), NonNull(Entity(typeB, id)))
    ensures EqualsObject(Entity(typeA, id), Boxed(Entity(typeB, id)))
  {
  }

  /** `Equals` on present entities is an equivalence relation, and equal
      entities hash alike. */
  lemma EqualsIsEquivalence(a: Entity, b: Entity, c: Entity, guidHash: Guid -> int)
    ensures Equals(a, NonNull(a))
    ensures Equals(a, NonNull(b)) ==> Equals(b, NonNull(a))
    ensures Equals(a, NonNull(b)) && Equals(b, NonNull(c)) ==> Equals(a, NonNull(c))
    ensures Equals(a, NonNull(b)) ==> GetHashCode(a, guidHash) == GetHashCode(b, guidHash)
  {
  }
}
