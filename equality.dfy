/** The null-tolerant comparison both entity classes use to implement
    equals: `(o1 == o2) || o1.equals(o2)`, where a null o1 makes the call to
    equals throw and the throw is caught as false. */
module Equality {
  import opened Wrappers

  /** Reference identity implies equals for every field type the entities
      compare (String, Date and the enums), and their equals is equality of
      values, so both disjuncts are read as value equality here. */
  function NullOrEqual<T(==)>(o1: Option<T>, o2: Option<T>): (b: bool)
    ensures o1.None? && o2.None? ==> b
    ensures o1.None? != o2.None? ==> !b
    ensures o1.Some? && o2.Some? ==> (b <==> o1.value == o2.value)
  {
    match o1
    case None =>
      // o1 == o2 holds only when o2 is null too; otherwise o1.equals throws
      o2.None?
    case Some(x) =>
      // x.equals(null) is false, so a null o2 never matches
      o2 == Some(x)
  }

  /** NullOrEqual is exactly equality of the two optional values. */
  lemma NullOrEqualIsEquality<T>(o1: Option<T>, o2: Option<T>)
    ensures NullOrEqual(o1, o2) <==> o1 == o2
  {
  }
}
