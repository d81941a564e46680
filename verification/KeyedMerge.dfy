/** An ordered merge by key, for any way of computing keys and merging entries: a fold that files
    each entry under its key, against the definition that groups the entries first. */
module KeyedMerge {
  import opened Common

  datatype Rule<K, !E> = Rule(keyOf: E -> K, merge: (E, E) -> E)

  /** The accumulator of the fold: the merged entries, and the key each was filed under. */
  datatype Table<K, E> = Table(keys: seq<K>, items: seq<E>)

  function IndexOf<K(==)>(keys: seq<K>, key: K): (r: Option<nat>)
    ensures r.Some? ==> r.value < |keys| && keys[r.value] == key
    ensures r.None? <==> key !in keys
    decreases |keys|
  {
    if keys == [] then None
    else if keys[|keys| - 1] == key then Some(|keys| - 1)
    else IndexOf(keys[..|keys| - 1], key)
  }

  predicate Aligned<K, E>(t: Table<K, E>) {
    |t.keys| == |t.items|
  }

  function Insert<K(==), E>(rule: Rule<K, E>, t: Table<K, E>, e: E): (r: Table<K, E>)
    requires Aligned(t)
    ensures Aligned(r)
  {
    var at := IndexOf(t.keys, rule.keyOf(e));
    if at.Some? then t.(items := t.items[at.value := rule.merge(t.items[at.value], e)])
    else Table(t.keys + [rule.keyOf(e)], t.items + [e])
  }

  function Fold<K(==), E>(rule: Rule<K, E>, t: Table<K, E>, es: seq<E>): (r: Table<K, E>)
    requires Aligned(t)
    ensures Aligned(r)
    decreases |es|
  {
    if es == [] then t else Fold(rule, Insert(rule, t, es[0]), es[1..])
  }

  // ---- the reference definition ----

  /** The distinct keys, by first occurrence. */
  function KeysOf<K(==), E>(rule: Rule<K, E>, es: seq<E>): seq<K> {
    if es == [] then []
    else
      var front, key := KeysOf(rule, es[..|es| - 1]), rule.keyOf(es[|es| - 1]);
      if key in front then front else front + [key]
  }

  /** The entries with this key, in order. */
  function Group<K(==), E>(rule: Rule<K, E>, es: seq<E>, key: K): seq<E> {
    if es == [] then []
    else
      var front, e := Group(rule, es[..|es| - 1], key), es[|es| - 1];
      if rule.keyOf(e) == key then front + [e] else front
  }

  function MergeAll<K, E>(rule: Rule<K, E>, group: seq<E>): E
    requires group != []
  {
    if |group| == 1 then group[0]
    else rule.merge(MergeAll(rule, group[..|group| - 1]), group[|group| - 1])
  }

  predicate Distinct<K(==)>(keys: seq<K>) {
    forall i, j :: 0 <= i < j < |keys| ==> keys[i] != keys[j]
  }

  /** One entry per key, by first occurrence, each the merge of its key's group. */
  ghost predicate Canonical<K, E>(rule: Rule<K, E>, t: Table<K, E>, es: seq<E>) {
    && Aligned(t) && t.keys == KeysOf(rule, es) && Distinct(t.keys)
    && forall i :: 0 <= i < |t.keys| ==> IsMergeOf(rule, t.items[i], Group(rule, es, t.keys[i]))
  }

  ghost predicate IsMergeOf<K, E>(rule: Rule<K, E>, e: E, group: seq<E>) {
    group != [] && e == MergeAll(rule, group)
  }

  lemma IsMergeOfMore<K, E>(rule: Rule<K, E>, e: E, group: seq<E>, next: E)
    requires IsMergeOf(rule, e, group)
    ensures IsMergeOf(rule, rule.merge(e, next), group + [next])
  {
    assert (group + [next])[..|group|] == group;
  }

  lemma {:induction false} GroupOfNewKey<K, E>(rule: Rule<K, E>, es: seq<E>, key: K)
    ensures key !in KeysOf(rule, es) <==> Group(rule, es, key) == []
    decreases |es|
  {
    if es == [] {
    } else {
      GroupOfNewKey(rule, es[..|es| - 1], key);
    }
  }

  lemma GroupAppend<K, E>(rule: Rule<K, E>, es: seq<E>, e: E, key: K)
    ensures Group(rule, es + [e], key) ==
              if rule.keyOf(e) == key then Group(rule, es, key) + [e] else Group(rule, es, key)
  {
    assert (es + [e])[..|es|] == es;
  }

  lemma {:induction false} GroupMembers<K, E>(rule: Rule<K, E>, es: seq<E>, key: K)
    ensures forall i :: 0 <= i < |Group(rule, es, key)| ==> rule.keyOf(Group(rule, es, key)[i]) == key && Group(rule, es, key)[i] in es
    decreases |es|
  {
    if es == [] {
    } else {
      GroupMembers(rule, es[..|es| - 1], key);
    }
  }

  lemma InsertedEntry<K, E>(rule: Rule<K, E>, t: Table<K, E>, es: seq<E>, e: E, i: nat)
    requires Canonical(rule, t, es) && i < |Insert(rule, t, e).keys|
    ensures IsMergeOf(rule, Insert(rule, t, e).items[i], Group(rule, es + [e], Insert(rule, t, e).keys[i]))
  {
    var r := Insert(rule, t, e);
    GroupAppend(rule, es, e, r.keys[i]);
    if r.keys[i] != rule.keyOf(e) {
      assert r.items[i] == t.items[i];
    } else if i < |t.keys| {
      IsMergeOfMore(rule, t.items[i], Group(rule, es, t.keys[i]), e);
    } else {
      GroupOfNewKey(rule, es, rule.keyOf(e));
    }
  }

  lemma InsertCanonical<K, E>(rule: Rule<K, E>, t: Table<K, E>, es: seq<E>, e: E)
    requires Canonical(rule, t, es)
    ensures Canonical(rule, Insert(rule, t, e), es + [e])
  {
    assert (es + [e])[..|es|] == es;
    forall i | 0 <= i < |Insert(rule, t, e).keys|
      ensures IsMergeOf(rule, Insert(rule, t, e).items[i], Group(rule, es + [e], Insert(rule, t, e).keys[i]))
    {
      InsertedEntry(rule, t, es, e, i);
    }
  }

  /** The fold computes the grouped merge, whatever was folded before. */
  lemma {:induction false} FoldCanonical<K, E>(rule: Rule<K, E>, t: Table<K, E>, done: seq<E>, es: seq<E>)
    requires Canonical(rule, t, done)
    ensures Canonical(rule, Fold(rule, t, es), done + es)
    decreases |es|
  {
    if es == [] {
      assert done + es == done;
    } else {
      var next, more := Insert(rule, t, es[0]), done + [es[0]];
      assert Canonical(rule, next, more) by { InsertCanonical(rule, t, done, es[0]); }
      assert more + es[1..] == done + es by { Regroup(done, es, es[1..]); }
      FoldCanonical(rule, next, more, es[1..]);
    }
  }

  // ---- keys that merging keeps ----

  /** Merging two such entries of one key gives such an entry of that key. */
  ghost predicate KeepsKeys<K, E(!new)>(rule: Rule<K, E>, good: E -> bool) {
    forall x, y :: good(x) && good(y) && rule.keyOf(x) == rule.keyOf(y) ==>
      good(rule.merge(x, y)) && rule.keyOf(rule.merge(x, y)) == rule.keyOf(y)
  }

  lemma {:induction false} MergeAllKeeps<K, E(!new)>(rule: Rule<K, E>, good: E -> bool, group: seq<E>, key: K)
    requires KeepsKeys(rule, good) && group != []
    requires forall i :: 0 <= i < |group| ==> good(group[i]) && rule.keyOf(group[i]) == key
    ensures good(MergeAll(rule, group)) && rule.keyOf(MergeAll(rule, group)) == key
    decreases |group|
  {
    if |group| == 1 {
    } else {
      MergeAllKeeps(rule, good, group[..|group| - 1], key);
    }
  }

  /** Then every entry of the fold still has the key it was filed under. */
  lemma FoldKeepsKeys<K, E(!new)>(rule: Rule<K, E>, good: E -> bool, es: seq<E>)
    requires KeepsKeys(rule, good) && forall i :: 0 <= i < |es| ==> good(es[i])
    ensures var t := Fold(rule, Table([], []), es);
            Distinct(t.keys) && forall i :: 0 <= i < |t.keys| ==> rule.keyOf(t.items[i]) == t.keys[i] && good(t.items[i])
  {
    assert [] + es == es;
    FoldCanonical(rule, Table([], []), [], es);
    var t := Fold(rule, Table([], []), es);
    assert Canonical(rule, t, es);
    forall i | 0 <= i < |t.keys| ensures rule.keyOf(t.items[i]) == t.keys[i] && good(t.items[i]) {
      assert IsMergeOf(rule, t.items[i], Group(rule, es, t.keys[i]));
      GroupMembers(rule, es, t.keys[i]);
      MergeAllKeeps(rule, good, Group(rule, es, t.keys[i]), t.keys[i]);
    }
  }

  lemma {:induction false} FoldJoins<K, E>(rule: Rule<K, E>, t: Table<K, E>, xs: seq<E>, ys: seq<E>)
    requires Aligned(t)
    ensures Fold(rule, t, xs + ys) == Fold(rule, Fold(rule, t, xs), ys)
    decreases |xs|
  {
    if xs == [] {
      assert xs + ys == ys;
    } else {
      FoldJoins(rule, Insert(rule, t, xs[0]), xs[1..], ys);
      assert (xs + ys)[1..] == xs[1..] + ys;
    }
  }

  /** Entries filed under their own, distinct keys: folding them again gives the same table. */
  lemma {:induction false} RefoldStable<K, E>(rule: Rule<K, E>, t: Table<K, E>, k: nat)
    requires Aligned(t) && Distinct(t.keys) && k <= |t.keys|
    requires forall i :: 0 <= i < |t.keys| ==> rule.keyOf(t.items[i]) == t.keys[i]
    ensures Fold(rule, Table([], []), t.items[..k]) == Table(t.keys[..k], t.items[..k])
    decreases k
  {
    if k == 0 {
      assert t.items[..0] == [];
    } else {
      RefoldStable(rule, t, k - 1);
      FoldJoins(rule, Table([], []), t.items[..k - 1], [t.items[k - 1]]);
      assert t.items[..k - 1] + [t.items[k - 1]] == t.items[..k];
      var front := Table(t.keys[..k - 1], t.items[..k - 1]);
      assert t.keys[k - 1] !in front.keys;
      assert Fold(rule, Insert(rule, front, t.items[k - 1]), []) == Insert(rule, front, t.items[k - 1]);
      assert t.keys[..k - 1] + [t.keys[k - 1]] == t.keys[..k];
    }
  }

  function EachKey<K, E>(rule: Rule<K, E>, es: seq<E>): (r: seq<K>)
    ensures |r| == |es| && forall i :: 0 <= i < |es| ==> r[i] == rule.keyOf(es[i])
  {
    seq(|es|, i requires 0 <= i < |es| => rule.keyOf(es[i]))
  }

  lemma EachKeyHead<K, E>(rule: Rule<K, E>, es: seq<E>)
    requires es != []
    ensures EachKey(rule, es)[0] == rule.keyOf(es[0]) && EachKey(rule, es)[1..] == EachKey(rule, es[1..])
  {
  }

  lemma InsertApart<K, E>(rule: Rule<K, E>, t: Table<K, E>, e: E)
    requires Aligned(t) && Distinct(t.keys)
    ensures var r := Insert(rule, t, e);
            && |r.items| <= |t.items| + 1 && Distinct(r.keys)
            && (|r.items| == |t.items| + 1 ==> r.items == t.items + [e] && r.keys == t.keys + [rule.keyOf(e)])
  {
  }

  lemma {:induction false} FoldBound<K, E>(rule: Rule<K, E>, t: Table<K, E>, es: seq<E>)
    requires Aligned(t)
    ensures |Fold(rule, t, es).items| <= |t.items| + |es|
    decreases |es|
  {
    if es == [] {
    } else {
      FoldBound(rule, Insert(rule, t, es[0]), es[1..]);
    }
  }

  /** The table that files each entry under a key of its own. */
  predicate FiledApart<K(==), E(==)>(rule: Rule<K, E>, t: Table<K, E>, es: seq<E>, r: Table<K, E>) {
    r.items == t.items + es && r.keys == t.keys + EachKey(rule, es) && Distinct(r.keys)
  }

  lemma FiledMore<K, E>(rule: Rule<K, E>, t: Table<K, E>, next: Table<K, E>, es: seq<E>, r: Table<K, E>)
    requires es != [] && next.items == t.items + [es[0]] && next.keys == t.keys + [rule.keyOf(es[0])]
    requires FiledApart(rule, next, es[1..], r)
    ensures FiledApart(rule, t, es, r)
  {
    var rest := EachKey(rule, es[1..]);
    assert r.items == t.items + es by { Regroup(t.items, es, es[1..]); }
    assert r.keys == t.keys + EachKey(rule, es) by {
      EachKeyHead(rule, es);
      Regroup(t.keys, EachKey(rule, es), rest);
    }
  }

  /** A fold that keeps every entry apart. */
  lemma {:induction false} FoldApart<K, E>(rule: Rule<K, E>, t: Table<K, E>, es: seq<E>)
    requires Aligned(t) && Distinct(t.keys)
    requires |Fold(rule, t, es).items| == |t.items| + |es|
    ensures FiledApart(rule, t, es, Fold(rule, t, es))
    decreases |es|
  {
    if es == [] {
      assert t.keys + EachKey(rule, es) == t.keys;
    } else {
      var next := Insert(rule, t, es[0]);
      InsertApart(rule, t, es[0]);
      FoldBound(rule, next, es[1..]);
      FoldApart(rule, next, es[1..]);
      FiledMore(rule, t, next, es, Fold(rule, next, es[1..]));
    }
  }

  /** The fixed points of a fold are the lists whose keys are pairwise distinct. */
  lemma FoldFixedIff<K, E>(rule: Rule<K, E>, es: seq<E>)
    ensures |Fold(rule, Table([], []), es).items| == |es| <==> Distinct(EachKey(rule, es))
    ensures Distinct(EachKey(rule, es)) ==> Fold(rule, Table([], []), es).items == es
  {
    var r := Fold(rule, Table([], []), es);
    if |r.items| == |es| {
      FoldApart(rule, Table([], []), es);
      assert r.keys == EachKey(rule, es);
    }
    if Distinct(EachKey(rule, es)) {
      RefoldStable(rule, Table(EachKey(rule, es), es), |es|);
      assert es[..|es|] == es;
    }
  }

  /** Then a fold absorbs an earlier one: folding its result and going on is going on. */
  lemma RefoldAbsorbs<K, E>(rule: Rule<K, E>, t: Table<K, E>, more: seq<E>)
    requires Aligned(t) && Distinct(t.keys)
    requires forall i :: 0 <= i < |t.keys| ==> rule.keyOf(t.items[i]) == t.keys[i]
    ensures Fold(rule, Table([], []), t.items + more) == Fold(rule, t, more)
  {
    RefoldStable(rule, t, |t.keys|);
    assert t.items[..|t.keys|] == t.items && t.keys[..|t.keys|] == t.keys;
    FoldJoins(rule, Table([], []), t.items, more);
  }

  /** On entries whose keys merging keeps, folding the result of a fold and going on is folding
      everything at once. */
  lemma FoldAbsorbs<K, E(!new)>(rule: Rule<K, E>, good: E -> bool, es: seq<E>, more: seq<E>)
    requires KeepsKeys(rule, good) && forall i :: 0 <= i < |es| ==> good(es[i])
    ensures Fold(rule, Table([], []), Fold(rule, Table([], []), es).items + more) == Fold(rule, Table([], []), es + more)
  {
    FoldKeepsKeys(rule, good, es);
    RefoldAbsorbs(rule, Fold(rule, Table([], []), es), more);
    FoldJoins(rule, Table([], []), es, more);
  }

  // ---- the loop ----

  ghost predicate Indexed<K>(index: map<K, nat>, keys: seq<K>) {
    && (forall k :: k in keys ==> k in index)
    && (forall k :: k in index ==> index[k] < |keys| && keys[index[k]] == k)
  }

  /** The mutable result and index are the table. */
  ghost predicate Holds<K, E>(items: seq<E>, index: map<K, nat>, t: Table<K, E>) {
    Aligned(t) && t.items == items && Distinct(t.keys) && Indexed(index, t.keys)
  }

  lemma InsertKnown<K, E>(rule: Rule<K, E>, items: seq<E>, index: map<K, nat>, t: Table<K, E>, e: E)
    requires Holds(items, index, t) && rule.keyOf(e) in index
    ensures var at := index[rule.keyOf(e)];
            Holds(items[at := rule.merge(items[at], e)], index, Insert(rule, t, e))
  {
    assert IndexOf(t.keys, rule.keyOf(e)) == Some(index[rule.keyOf(e)]);
  }

  lemma InsertNew<K, E>(rule: Rule<K, E>, items: seq<E>, index: map<K, nat>, t: Table<K, E>, e: E)
    requires Holds(items, index, t) && rule.keyOf(e) !in index
    ensures Holds(items + [e], index[rule.keyOf(e) := |items|], Insert(rule, t, e))
  {
    assert IndexOf(t.keys, rule.keyOf(e)) == None;
  }

  function Prepared<S, E>(prepare: S -> E, sources: seq<S>): (r: seq<E>)
    ensures |r| == |sources| && forall i :: 0 <= i < |sources| ==> r[i] == prepare(sources[i])
  {
    seq(|sources|, i requires 0 <= i < |sources| => prepare(sources[i]))
  }

  lemma FoldStep<K, E>(rule: Rule<K, E>, t: Table<K, E>, es: seq<E>, i: nat)
    requires Aligned(t) && i < |es|
    ensures Fold(rule, t, es[i..]) == Fold(rule, Insert(rule, t, es[i]), es[i + 1..])
  {
    assert es[i..][1..] == es[i + 1..];
  }

  /** Prepare each source, look its key up, and merge it into its entry or append it. */
  method MergeEach<S, K(==), E>(rule: Rule<K, E>, prepare: S -> E, sources: seq<S>) returns (items: seq<E>)
    ensures items == Fold(rule, Table([], []), Prepared(prepare, sources)).items
  {
    items := [];
    var index: map<K, nat> := map[];
    ghost var table: Table<K, E> := Table([], []);
    ghost var es := Prepared(prepare, sources);
    var i := 0;
    while i < |sources|
      invariant 0 <= i <= |sources|
      invariant Holds(items, index, table)
      invariant Fold(rule, table, es[i..]) == Fold(rule, Table([], []), es)
    {
      var e := prepare(sources[i]);
      FoldStep(rule, table, es, i);
      var key := rule.keyOf(e);
      if key in index {
        InsertKnown(rule, items, index, table, e);
        items := items[index[key] := rule.merge(items[index[key]], e)];
      } else {
        InsertNew(rule, items, index, table, e);
        index := index[key := |items|];
        items := items + [e];
      }
      table := Insert(rule, table, e);
      i := i + 1;
    }
  }
}
