/** Majorities of a finite set. */
module Quorum {
  predicate Majority<T>(part: set<T>, whole: set<T>) {
    part <= whole && 2 * |part| > |whole|
  }

  lemma Smaller<T>(a: set<T>, b: set<T>)
    requires a <= b
    ensures |a| <= |b|
  {
    assert b == a + (b - a);
  }

  /** Two majorities share a member. */
  lemma Overlap<T>(a: set<T>, b: set<T>, whole: set<T>) returns (x: T)
    requires Majority(a, whole) && Majority(b, whole)
    ensures x in a && x in b
  {
    if a * b == {} {
      assert |a + b| == |a| + |b|;
      Smaller(a + b, whole);
      assert false;
    }
    x :| x in a * b;
  }

  /** A superset of a majority is a majority. */
  lemma Grows<T>(a: set<T>, b: set<T>, whole: set<T>)
    requires Majority(a, whole) && a <= b <= whole
    ensures Majority(b, whole)
  {
    Smaller(a, b);
  }

  /** A voter that is struck off the waiting list adds one to the votes that are off it. */
  lemma Counted<T>(voters: set<T>, more: set<T>, waiting: set<T>, x: T)
    requires voters <= more && x in more && x in waiting
    ensures |voters - waiting| + 1 <= |more - (waiting - {x})|
  {
    Smaller(voters - waiting + {x}, more - (waiting - {x}));
  }
}
