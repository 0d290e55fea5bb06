/** Counting facts about sets of at most one, and of at least two, elements. */
module SmallSets {
  lemma SameElementsAtMostOne<T>(xs: set<T>)
    requires forall x <- xs, y <- xs :: x == y
    ensures |xs| <= 1
  {
    if x :| x in xs {
      assert xs == {x};
    }
  }

  lemma TwoElements<T>(xs: set<T>, x: T, y: T)
    requires x in xs && y in xs && x != y
    ensures |xs| >= 2
  {
    assert {x, y} <= xs;
    assert xs == {x, y} + (xs - {x, y});
  }
}
