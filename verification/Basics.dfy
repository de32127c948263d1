/** What several parts of the model share. */
module Basics {

  datatype Option<+T> = None | Some(value: T)

  lemma SubsetBound<T>(a: set<T>, b: set<T>)
    requires a <= b
    ensures |a| <= |b|
  {
    assert b == a + (b - a);
  }

  lemma NonEmpty(keys: set<int>)
    requires keys != {}
    ensures exists k :: k in keys
  {
    if forall i :: i !in keys {
      assert false;
    }
  }
}
