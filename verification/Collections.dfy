/** Facts about sets and sequences that several modules use. */
module Collections {

  lemma {:induction false} CardMono<T>(a: set<T>, b: set<T>)
    requires a <= b
    ensures |a| <= |b| && (|a| == |b| ==> a == b)
  {
    if a != {} {
      var x :| x in a;
      CardMono(a - {x}, b - {x});
      assert a == (a - {x}) + {x} && b == (b - {x}) + {x};
    }
  }

  function Below(k: nat): (r: set<nat>)
    ensures |r| == k && forall i: nat :: i in r <==> i < k
  {
    if k == 0 then {} else Below(k - 1) + {k - 1}
  }

  lemma SomeUnused(ids: set<nat>)
    ensures exists i: nat :: i !in ids
  {
    var candidates := Below(|ids| + 1);
    if candidates <= ids { CardMono(candidates, ids); }
    var i :| i in candidates && i !in ids;
  }

  /** The entries that `f` maps to `k`, in their order. */
  function Pick<E, K(==)>(es: seq<E>, f: E -> K, k: K): seq<E>
  {
    if es == [] then []
    else
      var init := Pick(es[..|es| - 1], f, k);
      if f(es[|es| - 1]) == k then init + [es[|es| - 1]] else init
  }
}
