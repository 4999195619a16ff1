/** Small datatypes shared by the geometry modules. */
module Wrappers {

  /** An optional value: a nullable reference field of the source (a segment's
      `Normal`, a polygon's cached `centroid`). */
  datatype Option<T> = None | Some(value: T)

  /** The argument of an `Equals(object obj)` override, as far as `Equals`
      can observe it: a null reference, an instance of exactly the receiver's
      class (`obj.GetType() == typeof(...)`) carrying its value, or an object
      of any other class. */
  datatype ObjectRef<T> = NullRef | SameClass(value: T) | OtherClass
}
