/** Vocabulary shared by every model in this project. */
module Common {

  datatype Option<+T> = None | Some(value: T)

  /** Seconds on the one clock that processes and the database share. */
  type Time = nat

  /** Identifiers, entity tags, revisions and digests of random tokens. Each
      table keeps a supply `next` that every new value is drawn from, so an
      identifier below the supply has been used and one at or above it has not. */
  type Id = nat

  /** A subset is no larger than its superset. */
  lemma {:induction false} SubsetSize<T>(a: set<T>, b: set<T>)
    requires a <= b
    ensures |a| <= |b|
    decreases b
  {
    if b != {} {
      var x :| x in b;
      SubsetSize(a - {x}, b - {x});
      assert a == a - {x} || a == (a - {x}) + {x};
    }
  }

  lemma {:induction false} Least(ids: set<Id>) returns (m: Id)
    requires ids != {}
    ensures m in ids && forall k :: k in ids ==> m <= k
    decreases ids
  {
    var some :| some in ids;
    var smaller := set k | k in ids && k < some;
    assert forall k :: k in ids ==> k in smaller || some <= k;
    if smaller == {} {
      m := some;
    } else {
      assert some !in smaller;
      m := Least(smaller);
    }
  }

  /** `n` identifiers drawn one after the other. */
  function Drawn(from: Id, n: nat): (ids: set<Id>)
    ensures forall d :: d in ids <==> from <= d < from + n
    ensures |ids| == n
  {
    if n == 0 then {} else Drawn(from, n - 1) + {from + n - 1}
  }
}
