/** Clustering of a batch by the generic outbox handler (`src/outbox/EventQueueGenericOutboxHandler.js`,
    with `clusterQueueEntries` and `addEntryToProcessingMap` of the base class). */
module OutboxClustering {
  import opened Collections

  // ----- cluster keys -----

  /** The key a helper function gives: action name, "##", printed value of the property. */
  function ClusterKey(action: string, value: string): string
  {
    action + "##" + value
  }

  predicate IsPrefix(a: string, b: string)
  {
    |a| <= |b| && b[..|a|] == a
  }

  /** Two actions can get into one cluster, for some values. */
  ghost predicate CanCollide(a: string, b: string)
  {
    exists v, w :: ClusterKey(a, v) == ClusterKey(b, w)
  }

  /** Exactly when the name of one, closed by the separator, begins the other. */
  lemma CollideIff(a: string, b: string)
    ensures CanCollide(a, b) <==> IsPrefix(a + "##", b + "##") || IsPrefix(b + "##", a + "##")
  {
    if CanCollide(a, b) {
      var v, w :| ClusterKey(a, v) == ClusterKey(b, w);
      var key := ClusterKey(a, v);
      assert key[..|a| + 2] == a + "##" && key[..|b| + 2] == b + "##";
      if |a| <= |b| { assert key[..|b| + 2][..|a| + 2] == key[..|a| + 2]; }
      else { assert key[..|a| + 2][..|b| + 2] == key[..|b| + 2]; }
    }
    if IsPrefix(a + "##", b + "##") { PrefixCollides(a, b); }
    if IsPrefix(b + "##", a + "##") {
      PrefixCollides(b, a);
      var v, w :| ClusterKey(b, v) == ClusterKey(a, w);
      assert ClusterKey(a, w) == ClusterKey(b, v);
    }
  }

  lemma PrefixCollides(a: string, b: string)
    requires IsPrefix(a + "##", b + "##")
    ensures CanCollide(a, b)
  {
    var v := (b + "##")[|a| + 2..];
    assert b + "##" == (b + "##")[..|a| + 2] + v;
    assert ClusterKey(a, v) == ClusterKey(b, "");
  }

  /** No two hashes in a row, and none at the end. */
  predicate Separable(action: string)
  {
    && (forall i | 0 <= i < |action| - 1 :: !(action[i] == '#' && action[i + 1] == '#'))
    && (action != "" ==> action[|action| - 1] != '#')
  }

  lemma SeparableActionsDoNotCollide(a: string, b: string, v: string, w: string)
    requires Separable(a) && Separable(b) && ClusterKey(a, v) == ClusterKey(b, w)
    ensures a == b && v == w
  {
    var key := ClusterKey(a, v);
    assert IsPrefix(a + "##", key) && IsPrefix(b + "##", key);
    ShorterIsNoPrefix(a, b, key);
    ShorterIsNoPrefix(b, a, key);
    assert a == key[..|a|] && b == key[..|b|];
    assert v == key[|a| + 2..] && w == key[|b| + 2..];
  }

  /** A name that ends before another one puts its separator inside that one or across its end. */
  lemma ShorterIsNoPrefix(a: string, b: string, key: string)
    requires IsPrefix(a + "##", key) && IsPrefix(b + "##", key)
    ensures |a| < |b| ==> !Separable(b)
  {
    if |a| < |b| {
      assert key[|a|] == (a + "##")[|a|] == '#' && key[|a| + 1] == (a + "##")[|a| + 1] == '#';
      assert b[|a|] == (b + "##")[|a|] == key[|a|];
      if |a| + 1 < |b| { assert b[|a| + 1] == (b + "##")[|a| + 1] == key[|a| + 1]; }
    }
  }

  // ----- the batch -----

  /** What clustering looks at, for entries E, actions A and cluster keys K: an entry's action, its
      key under the helper function its action's cluster handler calls, its own ID as a key; which
      actions have a specific cluster handler; which kinds of handler this batch makes relevant; and
      whether the handler asked for an action returns a well-formed result. */
  datatype Clustering<!E, !A, !K> = Clustering(
    action: E -> A, key: E -> K, idKey: E -> K,
    specific: A -> bool, genericRelevant: bool, specificRelevant: bool, valid: A -> bool)
  {
    predicate Specific(a: A) { specificRelevant && specific(a) }

    /** Some cluster handler is asked about entries of this action. */
    predicate Asked(a: A) { Specific(a) || genericRelevant }

    /** Some handler that is asked gives a malformed result. */
    ghost predicate Malformed(es: seq<E>) {
      exists i | 0 <= i < |es| :: Asked(action(es[i])) && !valid(action(es[i]))
    }
  }

  type Clusters<K, E> = map<K, seq<E>>

  function At<K, E>(c: Clusters<K, E>, k: K): seq<E>
  {
    if k in c then c[k] else []
  }

  function Count<K, E(==)>(c: Clusters<K, E>, k: K, e: E): nat
  {
    multiset(At(c, k))[e]
  }

  lemma {:induction false} PickCount<E, K>(es: seq<E>, f: E -> K, k: K, e: E)
    ensures multiset(Pick(es, f, k))[e] == if f(e) == k then multiset(es)[e] else 0
  {
    if es != [] {
      PickCount(es[..|es| - 1], f, k, e);
      assert es == es[..|es| - 1] + [es[|es| - 1]];
    }
  }

  lemma PickOneMore<E, K>(es: seq<E>, i: nat, f: E -> K, k: K)
    requires i < |es|
    ensures Pick(es[..i + 1], f, k) == Pick(es[..i], f, k) + if f(es[i]) == k then [es[i]] else []
  {
    assert es[..i + 1][..i] == es[..i];
  }

  lemma PickNonEmptyIff<E, K>(es: seq<E>, f: E -> K, k: K)
    ensures Pick(es, f, k) != [] <==> exists i :: 0 <= i < |es| && f(es[i]) == k
  {
    if Pick(es, f, k) != [] {
      PickCount(es, f, k, Pick(es, f, k)[0]);
      var e := Pick(es, f, k)[0];
      assert e in multiset(Pick(es, f, k));
      assert e in es;
    }
    if i :| 0 <= i < |es| && f(es[i]) == k {
      PickCount(es, f, k, es[i]);
      assert es[i] in multiset(es);
    }
  }

  /** `c` is `es` grouped by `f`: no empty groups, each group in the order of the batch. */
  ghost predicate Grouped<E(!new), K(!new)>(c: Clusters<K, E>, es: seq<E>, f: E -> K)
  {
    && (forall k :: At(c, k) == Pick(es, f, k))
    && (forall k | k in c :: c[k] != [])
  }

  /** Grouping by a key: the reduce loop of `clusterBase` and of the split by action. */
  method ClusterBase<E(!new), K(==, !new)>(es: seq<E>, f: E -> K) returns (c: Clusters<K, E>)
    ensures Grouped(c, es, f)
  {
    c := map[];
    for i := 0 to |es|
      invariant Grouped(c, es[..i], f)
    {
      ghost var before := c;
      c := c[f(es[i]) := At(c, f(es[i])) + [es[i]]];
      forall k ensures At(c, k) == Pick(es[..i + 1], f, k) {
        PickOneMore(es, i, f, k);
        assert At(before, k) == Pick(es[..i], f, k);
      }
    }
    assert es[..|es|] == es;
  }

  /** `m` is `m0` with the entries `es` added under their keys. */
  ghost predicate Gained<E(!new), K(!new)>(m0: Clusters<K, E>, m: Clusters<K, E>, es: seq<E>, f: E -> K)
  {
    forall k :: At(m, k) == At(m0, k) + Pick(es, f, k)
  }

  lemma GainOneMore<E(!new), K(!new)>(m0: Clusters<K, E>, m: Clusters<K, E>, es: seq<E>, i: nat, f: E -> K)
    requires i < |es| && Gained(m0, m, es[..i], f)
    ensures Gained(m0, m[f(es[i]) := At(m, f(es[i])) + [es[i]]], es[..i + 1], f)
  {
    forall k ensures At(m[f(es[i]) := At(m, f(es[i])) + [es[i]]], k) == At(m0, k) + Pick(es[..i + 1], f, k) {
      GainOneMoreAt(m0, m, es, i, f, k);
    }
  }

  lemma GainOneMoreAt<E, K>(m0: Clusters<K, E>, m: Clusters<K, E>, es: seq<E>, i: nat, f: E -> K, k: K)
    requires i < |es| && At(m, k) == At(m0, k) + Pick(es[..i], f, k)
    ensures At(m[f(es[i]) := At(m, f(es[i])) + [es[i]]], k) == At(m0, k) + Pick(es[..i + 1], f, k)
  {
    PickOneMore(es, i, f, k);
  }

  lemma GainedCount<E(!new), A, K(!new)>(m0: Clusters<K, E>, m: Clusters<K, E>, es: seq<E>, c: Clustering<E, A, K>)
    requires Gained(m0, m, es, c.idKey)
    ensures forall k, e :: Count(m, k, e) == Count(m0, k, e) + ById(c, es, k, e)
  {
    forall k, e ensures Count(m, k, e) == Count(m0, k, e) + ById(c, es, k, e) {
      PickCount(es, c.idKey, k, e);
      assert At(m, k) == At(m0, k) + Pick(es, c.idKey, k);
    }
  }

  /** The merged result of the handlers asked about the actions `done`: under a key that several of
      them use, `Object.assign` keeps only what the last one put there; `winner` names it. */
  ghost predicate Merged<E, A, K>(
    c: Clustering<E, A, K>, es: seq<E>, done: set<A>, m: Clusters<K, E>, winner: map<K, A>)
  {
    && winner.Keys == m.Keys
    && (forall k | k in m ::
          winner[k] in done && m[k] != [] && m[k] == Pick(Pick(es, c.action, winner[k]), c.key, k))
    && (forall i | 0 <= i < |es| && c.action(es[i]) in done :: c.key(es[i]) in m)
  }

  lemma MergeOneMore<E(!new), A(!new), K(!new)>(c: Clustering<E, A, K>, es: seq<E>, done: set<A>, m: Clusters<K, E>,
                              winner: map<K, A>, a: A, result: Clusters<K, E>)
    requires Merged(c, es, done, m, winner) && Grouped(result, Pick(es, c.action, a), c.key)
    ensures Merged(c, es, done + {a}, m + result, winner + map k | k in result :: a)
  {
    forall i | 0 <= i < |es| && c.action(es[i]) in done + {a} ensures c.key(es[i]) in m + result {
      if c.action(es[i]) == a {
        var k := c.key(es[i]);
        PickCount(es, c.action, a, es[i]);
        PickCount(Pick(es, c.action, a), c.key, k, es[i]);
        assert es[i] in multiset(es);
        assert At(result, k) == Pick(Pick(es, c.action, a), c.key, k);
      }
    }
  }

  /** How often clustering puts `e` under `k`. */
  ghost function Gain<E, A, K>(c: Clustering<E, A, K>, es: seq<E>, winner: map<K, A>, k: K, e: E): nat
  {
    (if c.Asked(c.action(e)) then 0 else ById(c, es, k, e))
    + if c.Malformed(es) then ById(c, es, k, e) else Won(c, es, winner, k, e)
  }

  /** Added by the handlers' merged results. */
  ghost function Won<E, A, K>(c: Clustering<E, A, K>, es: seq<E>, winner: map<K, A>, k: K, e: E): nat
  {
    if c.key(e) == k && k in winner && winner[k] == c.action(e) then multiset(es)[e] else 0
  }

  /** Added by the base class. */
  ghost function ById<E, A, K>(c: Clustering<E, A, K>, es: seq<E>, k: K, e: E): nat
  {
    if c.idKey(e) == k then multiset(es)[e] else 0
  }

  /** `winner` names, for every key of an entry that a handler was asked about, the action of one. */
  ghost predicate Winners<E, A, K>(c: Clustering<E, A, K>, es: seq<E>, winner: map<K, A>)
  {
    && (forall i | 0 <= i < |es| && c.Asked(c.action(es[i])) :: c.key(es[i]) in winner)
    && (forall k | k in winner ::
          exists i :: 0 <= i < |es| && c.Asked(winner[k]) && c.action(es[i]) == winner[k] && c.key(es[i]) == k)
  }

  /** How often `e` goes under `k` when the entries of the given actions are added by ID. */
  ghost function Direct<E, A, K>(c: Clustering<E, A, K>, es: seq<E>, actions: set<A>, k: K, e: E): nat
  {
    if c.action(e) in actions && c.idKey(e) == k then multiset(es)[e] else 0
  }

  /** The batch split by action, into actions with a specific handler and the others. */
  ghost predicate Split<E, A, K>(c: Clustering<E, A, K>, es: seq<E>, generic: Clusters<A, E>, specific: Clusters<A, E>)
  {
    && (forall a | a in generic :: !c.Specific(a) && generic[a] != [] && generic[a] == Pick(es, c.action, a))
    && (forall a | a in specific :: c.Specific(a) && specific[a] != [] && specific[a] == Pick(es, c.action, a))
    && (forall i | 0 <= i < |es| :: c.action(es[i]) in generic || c.action(es[i]) in specific)
  }

  lemma AbsentIsEmpty<E, A, K>(
    c: Clustering<E, A, K>, es: seq<E>, generic: Clusters<A, E>, specific: Clusters<A, E>, a: A)
    requires Split(c, es, generic, specific)
    ensures Pick(es, c.action, a) == At(if c.Specific(a) then specific else generic, a)
  {
    PickNonEmptyIff(es, c.action, a);
  }

  lemma SplitOneMore<E, A(!new), K>(
    c: Clustering<E, A, K>, es: seq<E>, i: nat, generic: Clusters<A, E>, specific: Clusters<A, E>)
    requires i < |es| && Split(c, es[..i], generic, specific)
    ensures var a := c.action(es[i]);
            if c.Specific(a) then Split(c, es[..i + 1], generic, specific[a := At(specific, a) + [es[i]]])
            else Split(c, es[..i + 1], generic[a := At(generic, a) + [es[i]]], specific)
  {
    AbsentIsEmpty(c, es[..i], generic, specific, c.action(es[i]));
    forall a ensures Pick(es[..i + 1], c.action, a) == Pick(es[..i], c.action, a) + if c.action(es[i]) == a then [es[i]] else [] {
      PickOneMore(es, i, c.action, a);
    }
    assert forall j | 0 <= j < i :: es[..i + 1][j] == es[..i][j];
  }

  lemma MalformedIff<E, A, K>(c: Clustering<E, A, K>, es: seq<E>, generic: Clusters<A, E>, specific: Clusters<A, E>)
    requires Split(c, es, generic, specific)
    ensures c.Malformed(es)
       <==> (c.genericRelevant && exists a :: a in generic && !c.valid(a)) || exists a :: a in specific && !c.valid(a)
  {
    forall a | a in generic || a in specific ensures exists i :: 0 <= i < |es| && c.action(es[i]) == a {
      PickNonEmptyIff(es, c.action, a);
    }
  }

  lemma DirectCount<E(!new), A(!new), K(!new)>(
    c: Clustering<E, A, K>, es: seq<E>, generic: Clusters<A, E>, specific: Clusters<A, E>)
    requires Split(c, es, generic, specific)
    ensures forall k, e :: Direct(c, es, if c.genericRelevant then {} else generic.Keys, k, e)
                           == if c.Asked(c.action(e)) then 0 else ById(c, es, k, e)
  {
    forall k, e ensures Direct(c, es, if c.genericRelevant then {} else generic.Keys, k, e)
                        == if c.Asked(c.action(e)) then 0 else ById(c, es, k, e) {
      if e in multiset(es) {
        var i :| 0 <= i < |es| && es[i] == e;
        assert c.action(es[i]) in generic || c.action(es[i]) in specific;
      }
    }
  }

  lemma MergedWins<E(!new), A(!new), K(!new)>(
    c: Clustering<E, A, K>, es: seq<E>, done: set<A>, m: Clusters<K, E>, winner: map<K, A>)
    requires Merged(c, es, done, m, winner)
    requires forall a | a in done :: c.Asked(a)
    requires forall i | 0 <= i < |es| && c.Asked(c.action(es[i])) :: c.action(es[i]) in done
    ensures Winners(c, es, winner)
    ensures forall k, e :: Count(m, k, e) == Won(c, es, winner, k, e)
  {
    forall k | k in winner
      ensures exists i :: 0 <= i < |es| && c.Asked(winner[k]) && c.action(es[i]) == winner[k] && c.key(es[i]) == k
    {
      var e := m[k][0];
      assert e in multiset(m[k]);
      PickCount(Pick(es, c.action, winner[k]), c.key, k, e);
      PickCount(es, c.action, winner[k], e);
      assert e in multiset(es);
    }
    forall k, e ensures Count(m, k, e) == Won(c, es, winner, k, e) {
      if k in m {
        PickCount(Pick(es, c.action, winner[k]), c.key, k, e);
        PickCount(es, c.action, winner[k], e);
      }
    }
  }

  class OutboxHandler<!E(==, !new), !A(==, !new), !K(==, !new)> {
    const c: Clustering<E, A, K>
    var processingMap: Clusters<K, E>

    constructor (c: Clustering<E, A, K>)
      ensures this.c == c && processingMap == map[]
    {
      this.c := c;
      processingMap := map[];
    }

    method AddEntryToProcessingMap(k: K, e: E)
      modifies this
      ensures processingMap == old(processingMap)[k := At(old(processingMap), k) + [e]]
    {
      if k !in processingMap { processingMap := processingMap[k := []]; }
      processingMap := processingMap[k := processingMap[k] + [e]];
    }

    /** The base class: every entry under its own ID. */
    method ClusterById(es: seq<E>)
      modifies this
      ensures forall k, e :: Count(processingMap, k, e) == Count(old(processingMap), k, e) + ById(c, es, k, e)
    {
      for i := 0 to |es|
        invariant Gained(old(processingMap), processingMap, es[..i], c.idKey)
      {
        GainOneMore(old(processingMap), processingMap, es, i, c.idKey);
        AddEntryToProcessingMap(c.idKey(es[i]), es[i]);
      }
      assert es[..|es|] == es;
      GainedCount(old(processingMap), processingMap, es, c);
    }

    method AddCluster(key: K, es: seq<E>)
      modifies this
      ensures forall k :: At(processingMap, k) == At(old(processingMap), k) + if k == key then es else []
    {
      for i := 0 to |es|
        invariant processingMap
               == if i == 0 then old(processingMap)
                  else old(processingMap)[key := At(old(processingMap), key) + es[..i]]
      {
        assert At(old(processingMap), key) + es[..i] == At(processingMap, key);
        AddEntryToProcessingMap(key, es[i]);
        assert At(old(processingMap), key) + es[..i] + [es[i]] == At(old(processingMap), key) + es[..i + 1];
      }
      assert es[..|es|] == es;
    }

    method AddToProcessingMap(m: Clusters<K, E>)
      modifies this
      ensures forall k, e :: Count(processingMap, k, e) == Count(old(processingMap), k, e) + Count(m, k, e)
    {
      var todo := m.Keys;
      while todo != {}
        invariant todo <= m.Keys
        invariant forall k :: At(processingMap, k) == At(old(processingMap), k) + if k in todo then [] else At(m, k)
      {
        var key :| key in todo;
        AddCluster(key, m[key]);
        todo := todo - {key};
      }
    }

    /** The split by action: the entries with a specific handler, and the rest. */
    method ClusterByAction(es: seq<E>) returns (generic: Clusters<A, E>, specific: Clusters<A, E>)
      ensures Split(c, es, generic, specific)
    {
      generic, specific := map[], map[];
      for i := 0 to |es|
        invariant Split(c, es[..i], generic, specific)
      {
        var a := c.action(es[i]);
        SplitOneMore(c, es, i, generic, specific);
        if c.Specific(a) {
          specific := specific[a := At(specific, a) + [es[i]]];
        } else {
          generic := generic[a := At(generic, a) + [es[i]]];
        }
      }
      assert es[..|es|] == es;
    }

    /** Without a generic handler the entries it would be asked about go in one by one. */
    method AddDirectly(es: seq<E>, groups: Clusters<A, E>)
      requires forall a | a in groups :: groups[a] == Pick(es, c.action, a)
      modifies this
      ensures forall k, e ::
        Count(processingMap, k, e) == Count(old(processingMap), k, e) + Direct(c, es, groups.Keys, k, e)
    {
      var todo := groups.Keys;
      while todo != {}
        invariant todo <= groups.Keys
        invariant forall k, e ::
          Count(processingMap, k, e) == Count(old(processingMap), k, e) + Direct(c, es, groups.Keys - todo, k, e)
      {
        var a :| a in todo;
        ghost var before := processingMap;
        ClusterById(groups[a]);
        forall k, e ensures Count(processingMap, k, e) == Count(before, k, e) + Direct(c, es, {a}, k, e)
        {
          PickCount(es, c.action, a, e);
        }
        todo := todo - {a};
      }
    }

    /** Asks the handler of every action in `groups`; stops at the first malformed result. */
    method AskHandlers(es: seq<E>, groups: Clusters<A, E>, m0: Clusters<K, E>, ghost done: set<A>, ghost winner0: map<K, A>)
      returns (ok: bool, m: Clusters<K, E>, ghost winner: map<K, A>)
      requires forall a | a in groups :: groups[a] == Pick(es, c.action, a)
      requires Merged(c, es, done, m0, winner0)
      ensures ok <==> forall a | a in groups :: c.valid(a)
      ensures ok ==> Merged(c, es, done + groups.Keys, m, winner)
    {
      ok, m, winner := true, m0, winner0;
      var todo := groups.Keys;
      ghost var asked := done;
      while todo != {}
        invariant todo <= groups.Keys
        invariant forall a | a in groups.Keys - todo :: c.valid(a)
        invariant asked == done + (groups.Keys - todo)
        invariant Merged(c, es, asked, m, winner)
      {
        var a :| a in todo;
        if !c.valid(a) { ok := false; return; }
        var result := ClusterBase(groups[a], c.key);
        MergeOneMore(c, es, asked, m, winner, a, result);
        m, winner := m + result, winner + map k | k in result :: a;
        todo, asked := todo - {a}, asked + {a};
      }
      assert asked == done + groups.Keys;
    }

    method ClusterQueueEntries(es: seq<E>) returns (ghost winner: map<K, A>)
      modifies this
      ensures c.Malformed(es) || Winners(c, es, winner)
      ensures forall k, e ::
        Count(processingMap, k, e) == Count(old(processingMap), k, e) + Gain(c, es, winner, k, e)
    {
      winner := map[];
      if !c.genericRelevant && !c.specificRelevant {
        ClusterById(es);
        return;
      }
      var generic, specific := ClusterByAction(es);
      MalformedIff(c, es, generic, specific);
      var ok, m := true, map[];
      ghost var done := {};
      if !c.genericRelevant {
        AddDirectly(es, generic);
      } else {
        ok, m, winner := AskHandlers(es, generic, m, {}, map[]);
        done := generic.Keys;
      }
      DirectCount(c, es, generic, specific);
      if ok {
        ok, m, winner := AskHandlers(es, specific, m, done, winner);
      }
      if ok {
        MergedWins(c, es, done + specific.Keys, m, winner);
        AddToProcessingMap(m);
      } else {
        ClusterById(es);
      }
    }
  }

  // ----- the partition -----

  /** `e` is in one cluster and there only once. */
  ghost predicate PlacedOnce<E, K(!new)>(m: Clusters<K, E>, e: E)
  {
    && (exists home :: Count(m, home, e) == 1)
    && (forall k, l | Count(m, k, e) > 0 && Count(m, l, e) > 0 :: k == l)
  }

  /** What one call on an empty processing map leaves behind. */
  ghost predicate Clustered<E(!new), A, K(!new)>(c: Clustering<E, A, K>, es: seq<E>, winner: map<K, A>, m: Clusters<K, E>)
  {
    && (c.Malformed(es) || Winners(c, es, winner))
    && (forall k, e :: Count(m, k, e) == Gain(c, es, winner, k, e))
  }

  /** Two entries of different actions get one key from the handlers. */
  ghost predicate KeysClash<E, A, K>(c: Clustering<E, A, K>, es: seq<E>)
  {
    exists i, j | 0 <= i < |es| && 0 <= j < |es| ::
      && c.Asked(c.action(es[i])) && c.Asked(c.action(es[j]))
      && c.action(es[i]) != c.action(es[j]) && c.key(es[i]) == c.key(es[j])
  }

  /** No handler is asked about some entry. */
  ghost predicate SomeUnasked<E, A, K>(c: Clustering<E, A, K>, es: seq<E>)
  {
    exists i | 0 <= i < |es| :: !c.Asked(c.action(es[i]))
  }

  ghost predicate Distinct<E>(es: seq<E>)
  {
    forall i, j | 0 <= i < j < |es| :: es[i] != es[j]
  }

  /** Every entry is placed exactly once, except when a malformed result comes after entries that
      were added by ID already, or when the handlers' keys of two actions clash. */
  lemma ExactlyOnceIff<E(!new), A(!new), K(!new)>(
    c: Clustering<E, A, K>, es: seq<E>, winner: map<K, A>, m: Clusters<K, E>)
    requires Clustered(c, es, winner, m) && Distinct(es)
    ensures (forall i | 0 <= i < |es| :: PlacedOnce(m, es[i]))
       <==> if c.Malformed(es) then !SomeUnasked(c, es) else !KeysClash(c, es)
  {
    forall i | 0 <= i < |es| ensures PlacedOnce(m, es[i]) <==> !(Twice(c, es, i) || Lost(c, es, winner, i)) {
      PlacedOnceIff(c, es, winner, m, i);
    }
    if !c.Malformed(es) { LostIff(c, es, winner); }
  }

  ghost predicate Twice<E, A, K>(c: Clustering<E, A, K>, es: seq<E>, i: nat)
    requires i < |es|
  {
    c.Malformed(es) && !c.Asked(c.action(es[i]))
  }

  ghost predicate Lost<E, A, K>(c: Clustering<E, A, K>, es: seq<E>, winner: map<K, A>, i: nat)
    requires i < |es|
  {
    !c.Malformed(es) && c.Asked(c.action(es[i])) && c.key(es[i]) in winner && winner[c.key(es[i])] != c.action(es[i])
  }

  lemma PlacedOnceIff<E(!new), A(!new), K(!new)>(
    c: Clustering<E, A, K>, es: seq<E>, winner: map<K, A>, m: Clusters<K, E>, i: nat)
    requires Clustered(c, es, winner, m) && Distinct(es) && i < |es|
    ensures PlacedOnce(m, es[i]) <==> !(Twice(c, es, i) || Lost(c, es, winner, i))
  {
    var e := es[i];
    DistinctCount(es, i);
    var home := if c.Malformed(es) || !c.Asked(c.action(e)) then c.idKey(e) else c.key(e);
    assert Count(m, home, e) == Gain(c, es, winner, home, e);
    if Twice(c, es, i) {
      assert Count(m, home, e) == 2;
    } else if Lost(c, es, winner, i) {
      assert forall k :: Count(m, k, e) == 0;
    } else {
      assert forall k :: Count(m, k, e) == if k == home then 1 else 0;
    }
  }

  lemma DistinctCount<E>(es: seq<E>, i: nat)
    requires Distinct(es) && i < |es|
    ensures multiset(es)[es[i]] == 1
  {
    assert es == es[..i] + [es[i]] + es[i + 1..];
    assert es[i] !in es[..i] && es[i] !in es[i + 1..];
  }

  lemma LostIff<E, A, K>(c: Clustering<E, A, K>, es: seq<E>, winner: map<K, A>)
    requires Winners(c, es, winner) && !c.Malformed(es)
    ensures KeysClash(c, es) <==> exists i :: 0 <= i < |es| && Lost(c, es, winner, i)
  {
    if KeysClash(c, es) {
      var i, j :| 0 <= i < |es| && 0 <= j < |es|
        && c.Asked(c.action(es[i])) && c.Asked(c.action(es[j]))
        && c.action(es[i]) != c.action(es[j]) && c.key(es[i]) == c.key(es[j]);
      assert Lost(c, es, winner, i) || Lost(c, es, winner, j);
    }
    if i :| 0 <= i < |es| && Lost(c, es, winner, i) {
      var k := c.key(es[i]);
      var j :| 0 <= j < |es| && c.Asked(winner[k]) && c.action(es[j]) == winner[k] && c.key(es[j]) == k;
      assert c.action(es[i]) != c.action(es[j]) && c.key(es[i]) == c.key(es[j]);
    }
  }

  // ----- the keys the helper functions make -----

  /** An entry: its action, the printed value of the property its handler clusters by, its ID. */
  datatype QueueEntry = QueueEntry(action: string, value: string, id: string)

  predicate NoHash(s: string)
  {
    forall i | 0 <= i < |s| :: s[i] != '#'
  }

  /** Handlers that return the helper functions' results. */
  ghost predicate UsesHelpers(c: Clustering<QueueEntry, string, string>)
  {
    forall e: QueueEntry :: c.action(e) == e.action && c.key(e) == ClusterKey(e.action, e.value) && c.idKey(e) == e.id
  }

  /** Batches as they are selected: IDs are distinct UUIDs. */
  ghost predicate UuidIds(es: seq<QueueEntry>)
  {
    && (forall i | 0 <= i < |es| :: NoHash(es[i].id))
    && (forall i, j | 0 <= i < j < |es| :: es[i].id != es[j].id)
  }

  /** With separable action names and well-formed results clustering partitions the batch: every
      entry is placed once, and entries in one cluster share action and value, or are one entry. */
  lemma ClustersPartitionTheBatch(
    c: Clustering<QueueEntry, string, string>, es: seq<QueueEntry>, winner: map<string, string>, m: Clusters<string, QueueEntry>)
    requires Clustered(c, es, winner, m) && UsesHelpers(c) && UuidIds(es) && !c.Malformed(es)
    requires forall i | 0 <= i < |es| :: Separable(es[i].action)
    ensures forall i | 0 <= i < |es| :: PlacedOnce(m, es[i])
    ensures forall k, e | Count(m, k, e) > 0 :: e in es
    ensures forall k, e, f | Count(m, k, e) > 0 && Count(m, k, f) > 0 ::
              e == f || (Alike(e, f) && c.Asked(e.action) && k == ClusterKey(e.action, e.value))
  {
    ExactlyOnceIff(c, es, winner, m);
    forall i, j | 0 <= i < |es| && 0 <= j < |es| && c.key(es[i]) == c.key(es[j])
      ensures c.action(es[i]) == c.action(es[j])
    {
      SeparableActionsDoNotCollide(es[i].action, es[j].action, es[i].value, es[j].value);
    }
    forall k, e | Count(m, k, e) > 0 ensures e in es { WhereItIs(c, es, winner, m, k, e); }
    forall k, e, f | Count(m, k, e) > 0 && Count(m, k, f) > 0
      ensures e == f || (Alike(e, f) && c.Asked(e.action) && k == ClusterKey(e.action, e.value))
    {
      OneClusterOneValue(c, es, winner, m, k, e, f);
    }
  }

  predicate Alike(e: QueueEntry, f: QueueEntry)
  {
    e.action == f.action && e.value == f.value
  }

  lemma WhereItIs(
    c: Clustering<QueueEntry, string, string>, es: seq<QueueEntry>, winner: map<string, string>,
    m: Clusters<string, QueueEntry>, k: string, e: QueueEntry)
    requires Clustered(c, es, winner, m) && UsesHelpers(c) && !c.Malformed(es)
    requires Count(m, k, e) > 0
    ensures e in es && k == if c.Asked(e.action) then ClusterKey(e.action, e.value) else e.id
  {
    assert Count(m, k, e) == Gain(c, es, winner, k, e);
    assert e in multiset(es);
  }

  lemma OneClusterOneValue(
    c: Clustering<QueueEntry, string, string>, es: seq<QueueEntry>, winner: map<string, string>,
    m: Clusters<string, QueueEntry>, k: string, e: QueueEntry, f: QueueEntry)
    requires Clustered(c, es, winner, m) && UsesHelpers(c) && !c.Malformed(es) && UuidIds(es)
    requires forall i | 0 <= i < |es| :: Separable(es[i].action)
    requires Count(m, k, e) > 0 && Count(m, k, f) > 0
    ensures e == f || (Alike(e, f) && c.Asked(e.action) && k == ClusterKey(e.action, e.value))
  {
    WhereItIs(c, es, winner, m, k, e);
    WhereItIs(c, es, winner, m, k, f);
    KeyHasHash(e.action, e.value);
    KeyHasHash(f.action, f.value);
    if c.Asked(e.action) && c.Asked(f.action) {
      SeparableActionsDoNotCollide(e.action, f.action, e.value, f.value);
    }
  }

  lemma KeyHasHash(action: string, value: string)
    ensures !NoHash(ClusterKey(action, value))
  {
    assert ClusterKey(action, value)[|action|] == '#';
  }

  /** It is not enough that action names contain no "##": "a" with value "#x" and "a#" with value "x"
      share the key "a###x", and one of the two entries gets lost. */
  lemma TrailingHashLosesAnEntry(
    c: Clustering<QueueEntry, string, string>, es: seq<QueueEntry>, winner: map<string, string>,
    m: Clusters<string, QueueEntry>)
    requires |es| == 2 && es[0].id != es[1].id && Clustered(c, es, winner, m) && UsesHelpers(c) && !c.Malformed(es)
    requires es[0].action == "a" && es[0].value == "#x" && es[1].action == "a#" && es[1].value == "x"
    requires c.Asked("a") && c.Asked("a#")
    ensures !PlacedOnce(m, es[0]) || !PlacedOnce(m, es[1])
  {
    assert ClusterKey("a", "#x") == "a###x" == ClusterKey("a#", "x");
    assert KeysClash(c, es) by { assert c.key(es[0]) == c.key(es[1]); }
    ExactlyOnceIff(c, es, winner, m);
  }

  /** Two entries, no generic cluster handler, and a specific one for the second that returns something
      malformed: the first entry is in its cluster twice, so that its handler gets it twice. */
  lemma MalformedPlacesTwice(
    c: Clustering<QueueEntry, string, string>, es: seq<QueueEntry>, winner: map<string, string>,
    m: Clusters<string, QueueEntry>)
    requires es == [QueueEntry("a", "x", "1"), QueueEntry("b", "y", "2")] && Clustered(c, es, winner, m) && UsesHelpers(c)
    requires !c.genericRelevant && c.specificRelevant && !c.specific("a") && c.specific("b") && !c.valid("b")
    ensures Count(m, "1", es[0]) == 2 && !PlacedOnce(m, es[0])
  {
    assert c.Asked(c.action(es[1])) && !c.valid(c.action(es[1]));
    assert c.Malformed(es) && Twice(c, es, 0);
    assert es[0].id != es[1].id;
    DistinctCount(es, 0);
    assert Count(m, "1", es[0]) == Gain(c, es, winner, "1", es[0]);
    PlacedOnceIff(c, es, winner, m, 0);
  }
}
