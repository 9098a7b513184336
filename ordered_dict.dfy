/**
 * Python `dict` as the build driver uses it: an insertion-ordered sequence of
 * (key, value) entries whose keys are distinct. `d[k] = v` replaces the value
 * of an existing key where it stands and appends a new key at the end;
 * `d.update(other)` does that for each entry of `other` in order.
 */
module OrderedDict {

  datatype Option<T> = None | Some(value: T)

  function Keys<K, V>(s: seq<(K, V)>): (ks: seq<K>)
    ensures |ks| == |s|
    ensures forall i :: 0 <= i < |s| ==> ks[i] == s[i].0
  {
    seq(|s|, i requires 0 <= i < |s| => s[i].0)
  }

  ghost predicate UniqueKeys<K, V>(s: seq<(K, V)>)
  {
    forall i, j :: 0 <= i < j < |s| ==> s[i].0 != s[j].0
  }

  /** Position of the first entry whose key is `k`. */
  function IndexOf<K(==), V>(s: seq<(K, V)>, k: K): (r: Option<nat>)
    ensures r.Some? <==> k in Keys(s)
    ensures r.Some? ==> r.value < |s| && s[r.value].0 == k
    ensures r.Some? ==> forall j :: 0 <= j < r.value ==> s[j].0 != k
    decreases |s|
  {
    if s == [] then None
    else if s[0].0 == k then Some(0)
    else match IndexOf(s[1..], k)
      case None => None
      case Some(i) => Some(i + 1)
  }

  /** `envs[k]`: the value stored under `k`, or None where Python raises `KeyError`. */
  function Lookup<K(==), V>(s: seq<(K, V)>, k: K): (r: Option<V>)
    ensures r.Some? <==> k in Keys(s)
    ensures r.Some? ==> (k, r.value) in s
  {
    match IndexOf(s, k)
    case None => None
    case Some(i) => Some(s[i].1)
  }

  /** `d[k] = v`. */
  function Assign<K(==), V>(s: seq<(K, V)>, k: K, v: V): (r: seq<(K, V)>)
  {
    match IndexOf(s, k)
    case Some(i) => s[i := (k, v)]
    case None => s + [(k, v)]
  }

  /** `d.update(t)`: assign the entries of `t` one after another. */
  function UpdateWith<K(==), V>(s: seq<(K, V)>, t: seq<(K, V)>): seq<(K, V)>
    decreases |t|
  {
    if t == [] then s else Assign(UpdateWith(s, t[..|t| - 1]), t[|t| - 1].0, t[|t| - 1].1)
  }

  /** Where a key is found depends on the key order only. */
  lemma {:induction false} IndexOfSameKeys<K, V>(s: seq<(K, V)>, t: seq<(K, V)>, k: K)
    requires Keys(s) == Keys(t)
    ensures IndexOf(s, k) == IndexOf(t, k)
    decreases |s|
  {
    if s != [] {
      assert s[0].0 == Keys(s)[0] == t[0].0;
      assert Keys(s[1..]) == Keys(s)[1..] == Keys(t)[1..] == Keys(t[1..]);
      IndexOfSameKeys(s[1..], t[1..], k);
    }
  }

  lemma {:induction false} IndexOfAppend<K, V>(s: seq<(K, V)>, x: (K, V), k: K)
    requires x.0 != k
    ensures IndexOf(s + [x], k) == IndexOf(s, k)
    decreases |s|
  {
    if s != [] {
      assert (s + [x])[1..] == s[1..] + [x];
      IndexOfAppend(s[1..], x, k);
    }
  }

  /** The keys of a non-empty sequence are those of its front, then its last key. */
  lemma KeysSnoc<K, V>(t: seq<(K, V)>)
    requires t != []
    ensures Keys(t) == Keys(t[..|t| - 1]) + [t[|t| - 1].0]
  {
  }

  /** The front of a sequence with distinct keys has distinct keys, and lacks the last key. */
  lemma FrontUnique<K, V>(t: seq<(K, V)>)
    requires t != [] && UniqueKeys(t)
    ensures UniqueKeys(t[..|t| - 1])
    ensures t[|t| - 1].0 !in Keys(t[..|t| - 1])
  {
    var n := |t| - 1;
    forall i | 0 <= i < n ensures Keys(t[..n])[i] != t[n].0 {
      assert Keys(t[..n])[i] == t[i].0;
    }
  }

  lemma KeysConcat<K, V>(s: seq<(K, V)>, t: seq<(K, V)>)
    ensures Keys(s + t) == Keys(s) + Keys(t)
  {
  }

  /** In a dict, each entry is what a lookup of its key returns. */
  lemma LookupAt<K, V>(s: seq<(K, V)>, i: nat)
    requires UniqueKeys(s) && i < |s|
    ensures Lookup(s, s[i].0) == Some(s[i].1)
  {
    assert s[i].0 in Keys(s) by { assert Keys(s)[i] == s[i].0; }
  }

  /** A lookup finds the first entry with the key. */
  lemma LookupFirst<K, V>(s: seq<(K, V)>, i: nat)
    requires i < |s|
    requires forall j :: 0 <= j < i ==> s[j].0 != s[i].0
    ensures Lookup(s, s[i].0) == Some(s[i].1)
  {
    assert s[i].0 in Keys(s) by { assert Keys(s)[i] == s[i].0; }
  }

  /** Assigning keeps every existing key where it is and appends a new key last. */
  lemma AssignKeys<K, V>(s: seq<(K, V)>, k: K, v: V)
    ensures Keys(Assign(s, k, v)) == if k in Keys(s) then Keys(s) else Keys(s) + [k]
    ensures UniqueKeys(s) ==> UniqueKeys(Assign(s, k, v))
  {
    var r := Assign(s, k, v);
    if k in Keys(s) {
      assert Keys(r) == Keys(s);
    } else {
      KeysConcat(s, [(k, v)]);
      if UniqueKeys(s) {
        forall i | 0 <= i < |s| ensures s[i].0 != k {
          assert Keys(s)[i] == s[i].0;
        }
      }
    }
  }

  /** After `d[k] = v`, `k` holds `v` and every other key holds what it held. */
  lemma AssignLookup<K, V>(s: seq<(K, V)>, k: K, v: V, j: K)
    ensures Lookup(Assign(s, k, v), j) == if j == k then Some(v) else Lookup(s, j)
  {
    var r := Assign(s, k, v);
    AssignKeys(s, k, v);
    match IndexOf(s, k)
    case Some(i) =>
      IndexOfSameKeys(r, s, j);
    case None =>
      if j == k {
        assert r[|s|] == (k, v);
        assert forall m :: 0 <= m < |s| ==> r[m].0 == s[m].0 != k by {
          forall m | 0 <= m < |s| ensures r[m].0 == s[m].0 != k {
            assert Keys(s)[m] == s[m].0;
          }
        }
        assert k in Keys(r) by { assert Keys(r)[|s|] == k; }
      } else {
        IndexOfAppend(s, (k, v), j);
      }
  }

  /** With `d[k] = v` on a key `d` already holds, the entry changes in place. */
  lemma AssignAt<K, V>(s: seq<(K, V)>, i: nat, v: V)
    requires UniqueKeys(s) && i < |s|
    ensures Assign(s, s[i].0, v) == s[i := (s[i].0, v)]
  {
    assert Keys(s)[i] == s[i].0;
  }

  /** A dict display `t` with a key not yet in it is `t` with that entry assigned. */
  lemma AppendIsAssign<K, V>(t: seq<(K, V)>, x: (K, V))
    requires x.0 !in Keys(t)
    ensures Assign(t, x.0, x.1) == t + [x]
  {
  }

  lemma {:induction false} UpdateWithUnique<K, V>(s: seq<(K, V)>, t: seq<(K, V)>)
    requires UniqueKeys(s)
    ensures UniqueKeys(UpdateWith(s, t))
    decreases |t|
  {
    if t != [] {
      var n := |t| - 1;
      UpdateWithUnique(s, t[..n]);
      AssignKeys(UpdateWith(s, t[..n]), t[n].0, t[n].1);
    }
  }

  /** `d.update(t)` keeps the keys of `d` in their order at the front. */
  lemma {:induction false} UpdateWithPrefix<K, V>(s: seq<(K, V)>, t: seq<(K, V)>)
    ensures Keys(s) <= Keys(UpdateWith(s, t))
    decreases |t|
  {
    if t != [] {
      var n := |t| - 1;
      UpdateWithPrefix(s, t[..n]);
      AssignKeys(UpdateWith(s, t[..n]), t[n].0, t[n].1);
    }
  }

  /** After `d.update(t)` the keys are those of `d` and those of `t`, and no others. */
  lemma {:induction false} UpdateWithKeySet<K, V>(s: seq<(K, V)>, t: seq<(K, V)>, k: K)
    ensures k in Keys(UpdateWith(s, t)) <==> k in Keys(s) || k in Keys(t)
    decreases |t|
  {
    if t != [] {
      var n := |t| - 1;
      UpdateWithKeySet(s, t[..n], k);
      AssignKeys(UpdateWith(s, t[..n]), t[n].0, t[n].1);
      KeysSnoc(t);
    }
  }

  /** `d.update(t)` adds no key, and moves none, when every key of `t` is already in `d`. */
  lemma {:induction false} UpdateWithSameKeys<K, V>(s: seq<(K, V)>, t: seq<(K, V)>)
    requires forall k :: k in Keys(t) ==> k in Keys(s)
    ensures Keys(UpdateWith(s, t)) == Keys(s)
    decreases |t|
  {
    if t != [] {
      var n := |t| - 1;
      KeysSnoc(t);
      UpdateWithSameKeys(s, t[..n]);
      AssignKeys(UpdateWith(s, t[..n]), t[n].0, t[n].1);
    }
  }

  /** After `d.update(t)`, a key of `t` holds its value in `t`; any other key is untouched. */
  lemma {:induction false} UpdateWithLookup<K, V>(s: seq<(K, V)>, t: seq<(K, V)>, k: K)
    requires UniqueKeys(t)
    ensures Lookup(UpdateWith(s, t), k) == if k in Keys(t) then Lookup(t, k) else Lookup(s, k)
    decreases |t|
  {
    if t != [] {
      var n := |t| - 1;
      var front := t[..n];
      FrontUnique(t);
      KeysSnoc(t);
      UpdateWithLookup(s, front, k);
      AssignLookup(UpdateWith(s, front), t[n].0, t[n].1, k);
      assert t == front + [t[n]];
      AppendIsAssign(front, t[n]);
      AssignLookup(front, t[n].0, t[n].1, k);
    }
  }

  /** Updating with a dict whose keys are all new appends its entries in order. */
  lemma {:induction false} UpdateWithFresh<K, V>(s: seq<(K, V)>, t: seq<(K, V)>)
    requires UniqueKeys(t)
    requires forall k :: k in Keys(t) ==> k !in Keys(s)
    ensures UpdateWith(s, t) == s + t
    decreases |t|
  {
    if t != [] {
      var n := |t| - 1;
      var front := t[..n];
      FrontUnique(t);
      KeysSnoc(t);
      UpdateWithFresh(s, front);
      KeysConcat(s, front);
      AppendIsAssign(s + front, t[n]);
      assert s + front + [t[n]] == s + t;
    }
  }

  /** A Python dict, mutated in place. */
  class Dict<K(==), V> {
    var items: seq<(K, V)>

    ghost predicate Valid()
      reads this
    {
      UniqueKeys(items)
    }

    /** `{}` */
    constructor ()
      ensures Valid() && items == []
    {
      items := [];
    }

    /** `d[k] = v` */
    method Set(k: K, v: V)
      requires Valid()
      modifies this
      ensures Valid()
      ensures items == Assign(old(items), k, v)
    {
      AssignKeys(items, k, v);
      items := Assign(items, k, v);
    }

    /** `d.update(other)` */
    method Update(other: seq<(K, V)>)
      requires Valid()
      modifies this
      ensures Valid()
      ensures items == UpdateWith(old(items), other)
    {
      var i := 0;
      while i < |other|
        invariant 0 <= i <= |other|
        invariant Valid()
        invariant items == UpdateWith(old(items), other[..i])
      {
        assert other[..i + 1][..i] == other[..i];
        Set(other[i].0, other[i].1);
        i := i + 1;
      }
      assert other[..|other|] == other;
    }
  }
}
