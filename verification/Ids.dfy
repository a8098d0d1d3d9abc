/** Generated ids and hashes. */
module Ids {
  /** There is always one left. */
  lemma FreshId(used: set<string>) returns (id: string)
    ensures id !in used
  {
    var n: nat := 0;
    var left := used;
    while left != {}
      invariant left <= used
      invariant forall x :: x in used - left ==> |x| < n
    {
      var x :| x in left;
      left := left - {x};
      n := if n <= |x| then |x| + 1 else n;
    }
    id := seq(n, i => 'a');
    assert |id| == n && used - left == used;
  }
}
