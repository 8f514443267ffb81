/**
 * The three-state option patch shared by the global, appender and logger
 * `setOptions` operations. An option in a patch is either not mentioned
 * (undefined), explicitly null, or a value; the target holds a local value
 * or none at all.
 */
module Options {
  import opened Base

  datatype Patch<+T> = Absent | Null | Value(v: T)

  /**
   * copyProperty: an absent option leaves the target's local value as it is,
   * a null option deletes the local value (so that it is inherited again, or
   * undefined where nothing is inherited), any other option becomes the new
   * local value.
   */
  function CopyProperty<T>(from: Patch<T>, to: Option<T>): (r: Option<T>)
    ensures from.Absent? ==> r == to
    ensures from.Null? ==> r == None
    ensures from.Value? ==> r == Some(from.v)
  {
    match from
    case Absent => to
    case Null => None
    case Value(v) => Some(v)
  }

  /** What copyProperty promises for one option: `after` is the local value once `from` is applied to `before`. */
  predicate Patched<T(==)>(from: Patch<T>, before: Option<T>, after: Option<T>)
  {
    && (from.Absent? ==> after == before)
    && (from.Null? ==> after == None)
    && (from.Value? ==> after == Some(from.v))
  }

  /** Applying the same patch twice is the same as applying it once. */
  lemma CopyPropertyIdempotent<T>(from: Patch<T>, to: Option<T>)
    ensures CopyProperty(from, CopyProperty(from, to)) == CopyProperty(from, to)
  {
  }

  /** The outcome of a patch that mentions the option does not depend on the old local value. */
  lemma CopyPropertyOverrides<T>(from: Patch<T>, a: Option<T>, b: Option<T>)
    requires !from.Absent?
    ensures CopyProperty(from, a) == CopyProperty(from, b)
  {
  }
}
