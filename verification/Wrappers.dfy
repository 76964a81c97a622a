/** The optional value used throughout the model, and one fact about sets. */
module Wrappers {
  datatype Option<+T> = None | Some(value: T)

  lemma EmptyWhenNothingIsInside(s: set<int>)
    ensures (forall k :: k !in s) ==> s == {}
  {
    if forall k :: k !in s {
      assert s == {};
    }
  }
}
