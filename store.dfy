/**
 * A repository table is a map from surrogate key to row; keys are handed out
 * in increasing order, so every stored key lies below the table's next key.
 * `Select` gives the meaning of the derived list queries the services use
 * (`findByUserId` returning a list, `findAll`).
 */
module Store {
  import opened Domain

  /** The keys below `bound` whose row satisfies `p` and equals `x`. */
  ghost function Hits<T(!new)>(m: map<nat, T>, p: T -> bool, bound: nat, x: T): set<nat>
  {
    set k | k < bound && k in m && p(m[k]) && m[k] == x
  }

  /** Raising the bound by one adds the key `bound` to the hits exactly when its row is a hit. */
  lemma HitsStep<T(!new)>(m: map<nat, T>, p: T -> bool, bound: nat, x: T)
    ensures |Hits(m, p, bound + 1, x)| == |Hits(m, p, bound, x)| + if bound in m && p(m[bound]) && m[bound] == x then 1 else 0
  {
    if bound in m && p(m[bound]) && m[bound] == x {
      assert Hits(m, p, bound + 1, x) == Hits(m, p, bound, x) + {bound};
    } else {
      assert Hits(m, p, bound + 1, x) == Hits(m, p, bound, x);
    }
  }

  /**
   * The rows below `bound` that satisfy `p`: every listed row is a stored row
   * satisfying `p`, and each row is listed exactly as many times as there are
   * keys below `bound` holding it.
   */
  function Select<T(==,!new)>(m: map<nat, T>, p: T -> bool, bound: nat): (r: seq<T>)
    ensures forall x :: x in r ==> p(x) && x in m.Values
    ensures forall k :: k < bound && k in m && p(m[k]) ==> m[k] in r
    ensures forall x :: multiset(r)[x] == |Hits(m, p, bound, x)|
    ensures |r| <= bound
  {
    if bound == 0 then
      assert forall x :: Hits(m, p, 0, x) == {};
      []
    else
      var k := bound - 1;
      var rest := Select(m, p, k);
      assert forall x :: |Hits(m, p, k + 1, x)| == |Hits(m, p, k, x)| + if k in m && p(m[k]) && m[k] == x then 1 else 0 by {
        forall x { HitsStep(m, p, k, x); }
      }
      rest + (if k in m && p(m[k]) then [m[k]] else [])
  }
}
