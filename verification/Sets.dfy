/** Counting by one-to-one correspondence. */
module Sets {
  lemma {:induction false} SameSize<A, B>(s: set<A>, m: map<A, B>, t: set<B>)
    requires forall x :: x in s ==> x in m && m[x] in t
    requires forall x, y :: x in s && y in s && m[x] == m[y] ==> x == y
    requires forall y :: y in t ==> exists x :: x in s && m[x] == y
    ensures |s| == |t|
    decreases |s|
  {
    if s == {} {
      assert forall y :: y !in t;
    } else {
      var x :| x in s;
      forall y | y in t - {m[x]} ensures exists x' :: x' in s - {x} && m[x'] == y {
        var x' :| x' in s && m[x'] == y;
        assert x' in s - {x};
      }
      SameSize(s - {x}, m, t - {m[x]});
    }
  }
}
