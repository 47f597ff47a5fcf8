/** What several components share. */
module Common {

  datatype Option<+T> = None | Some(value: T)

  lemma SubsetSize<T>(a: set<T>, b: set<T>)
    requires a <= b
    ensures |a| <= |b|
  {
    assert b == a + (b - a);
  }

  /** The integers from `a` up to, not including, `b`. */
  ghost function Range(a: int, b: int): (r: set<int>)
    ensures forall k :: k in r <==> a <= k < b
    ensures |r| == if a < b then b - a else 0
    decreases b - a
  {
    if a < b then Range(a, b - 1) + {b - 1} else {}
  }

  /** A number above all of a finite set, so a name no one uses yet. */
  lemma {:induction false} UpperBound(ws: set<int>) returns (m: int)
    ensures forall x | x in ws :: x < m
    decreases |ws|
  {
    if y :| y in ws {
      m := UpperBound(ws - {y});
      m := if y < m then m else y + 1;
      assert forall x | x in ws :: x == y || x in ws - {y};
    } else {
      m := 0;
      assert forall x :: x !in ws;
    }
  }
}
