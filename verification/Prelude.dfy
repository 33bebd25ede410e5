/** Small shared vocabulary: optional values and the size of a subset. */
module Prelude {
  datatype Option<+T> = None | Some(value: T)

  /** A subset has no more elements than the set. */
  lemma {:induction false} SubsetSize<T>(a: set<T>, b: set<T>)
    requires a <= b
    ensures |a| <= |b|
  {
    assert b == a + (b - a);
  }
}
