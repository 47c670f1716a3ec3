/** A loop that follows cursors until one leads back to 0: the course of SCAN, and
    of the key-group script, which passes SCAN's cursors on. */
module Cursors {
  import opened Wrappers

  /** Where the reply at a cursor sends the loop; None is an error. */
  type Next = int -> Option<int>

  predicate LeadsTo(next: Next, from: int, to: int) {
    next(from) == Some(to) && to != 0
  }

  /** The cursors visited from 0: each leads to the following one, and the last one
      back to 0 or into an error. */
  predicate IsCourse(next: Next, cursors: seq<int>) {
    && cursors != [] && cursors[0] == 0
    && (forall i | 0 <= i < |cursors| - 1 :: LeadsTo(next, cursors[i], cursors[i + 1]))
    && next(cursors[|cursors| - 1]).GetOr(0) == 0
  }

  ghost predicate Ends(next: Next) {
    exists cursors :: IsCourse(next, cursors)
  }

  ghost function CourseOf(next: Next): (cursors: seq<int>)
    requires Ends(next)
    ensures IsCourse(next, cursors)
  {
    var cursors :| IsCourse(next, cursors);
    cursors
  }

  lemma {:induction false} CoursesAgree(next: Next, a: seq<int>, b: seq<int>, n: nat)
    requires IsCourse(next, a) && IsCourse(next, b) && n <= |a|
    ensures n <= |b| && a[..n] == b[..n]
  {
    if n <= 1 {
    } else {
      CoursesAgree(next, a, b, n - 1);
      assert a[n - 2] == a[..n - 1][n - 2] == b[..n - 1][n - 2] == b[n - 2];
      assert LeadsTo(next, a[n - 2], a[n - 2 + 1]);
      assert a[..n] == a[..n - 1] + [a[n - 1]];
    }
  }

  /** There is one course at most. */
  lemma {:induction false} CourseIsUnique(next: Next, a: seq<int>, b: seq<int>)
    requires IsCourse(next, a) && IsCourse(next, b)
    ensures a == b
  {
    CoursesAgree(next, a, b, |a|);
    CoursesAgree(next, b, a, |b|);
  }

  /** The same replies, the same course. */
  lemma {:induction false} CourseTransfers(x: Next, y: Next, cursors: seq<int>)
    requires forall c :: x(c) == y(c)
    requires IsCourse(x, cursors)
    ensures IsCourse(y, cursors)
  {
    forall i | 0 <= i < |cursors| - 1 ensures LeadsTo(y, cursors[i], cursors[i + 1]) {
      assert LeadsTo(x, cursors[i], cursors[i + 1]);
    }
  }

  lemma {:induction false} SameEnd(x: Next, y: Next)
    requires forall c :: x(c) == y(c)
    ensures Ends(x) <==> Ends(y)
    ensures Ends(x) ==> CourseOf(x) == CourseOf(y)
  {
    if Ends(x) {
      CourseTransfers(x, y, CourseOf(x));
      CourseIsUnique(y, CourseOf(x), CourseOf(y));
    } else if Ends(y) {
      CourseTransfers(y, x, CourseOf(y));
    }
  }
}
