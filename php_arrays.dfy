/**
 * PHP's array as an ordered map: `$a[$k] = $v`, `$a[$k]`, `unset($a[$k])`.
 *
 * Assigning to a key that is already present replaces its value where it
 * stands; assigning to a new key appends it; unsetting removes the entry and
 * keeps the order of the others.
 */
module PhpArrays {
  import opened Php

  /** The keys of `a`, in order. */
  function Keys<V>(a: PhpArray<V>): (ks: seq<Key>)
    ensures |ks| == |a|
    ensures forall i :: 0 <= i < |a| ==> ks[i] == a[i].0
  {
    seq(|a|, i requires 0 <= i < |a| => a[i].0)
  }

  /** No key occurs twice: the shape every PHP array has. */
  ghost predicate UniqueKeys<V>(a: PhpArray<V>) {
    forall i, j :: 0 <= i < j < |a| ==> a[i].0 != a[j].0
  }

  /** `$a[$k]`: the value stored under `k`, or nothing when `k` is absent. */
  function Lookup<V>(a: PhpArray<V>, k: Key): (r: Option<V>)
    ensures r.None? <==> k !in Keys(a)
    ensures r.Some? ==> k in Keys(a) && r.value == a[IndexOf(a, k)].1
  {
    if a == [] then None
    else if a[0].0 == k then Some(a[0].1)
    else
      assert k in Keys(a) ==> k in Keys(a[1..]) by {
        if k in Keys(a) {
          var n :| 0 <= n < |a| && Keys(a)[n] == k;
          assert Keys(a[1..])[n - 1] == k;
        }
      }
      Lookup(a[1..], k)
  }

  /** `$a[$k] = $v`: an existing key keeps its place, a new one goes last. */
  function Put<V>(a: PhpArray<V>, k: Key, v: V): (r: PhpArray<V>)
    ensures k in Keys(a) ==> Keys(r) == Keys(a)
    ensures k !in Keys(a) ==> r == a + [(k, v)]
  {
    if a == [] then [(k, v)]
    else if a[0].0 == k then [(k, v)] + a[1..]
    else [a[0]] + Put(a[1..], k, v)
  }

  /** After `$a[$k] = $v`, `$a[$k]` is `v` and every other key reads as before. */
  lemma {:induction false} PutLookup<V>(a: PhpArray<V>, k: Key, v: V, j: Key)
    ensures Lookup(Put(a, k, v), j) == if j == k then Some(v) else Lookup(a, j)
  {
    if a != [] && a[0].0 != k {
      PutLookup(a[1..], k, v, j);
    }
  }

  /** `$a[$k] = $v` keeps the keys unique. */
  lemma {:induction false} PutUnique<V>(a: PhpArray<V>, k: Key, v: V)
    requires UniqueKeys(a)
    ensures UniqueKeys(Put(a, k, v))
  {
    var r := Put(a, k, v);
    if k in Keys(a) {
      forall i, j | 0 <= i < j < |r| ensures r[i].0 != r[j].0 {
        assert r[i].0 == Keys(r)[i] == Keys(a)[i];
        assert r[j].0 == Keys(r)[j] == Keys(a)[j];
      }
    } else {
      forall i | 0 <= i < |a| ensures a[i].0 != k {
        assert Keys(a)[i] == a[i].0;
      }
    }
  }

  /** Where the key `k` stands in `a`. */
  function IndexOf<V>(a: PhpArray<V>, k: Key): (i: nat)
    requires k in Keys(a)
    ensures i < |a| && a[i].0 == k
    ensures forall j :: 0 <= j < i ==> a[j].0 != k
  {
    if a[0].0 == k then 0 else 1 + IndexOf(a[1..], k)
  }

  /** `unset($a[$k])`. */
  function Remove<V>(a: PhpArray<V>, k: Key): (r: PhpArray<V>)
    ensures k !in Keys(r)
    ensures k !in Keys(a) ==> r == a
  {
    if a == [] then []
    else if a[0].0 == k then Remove(a[1..], k)
    else [a[0]] + Remove(a[1..], k)
  }

  /** After `unset($a[$k])` every other key reads as before. */
  lemma {:induction false} RemoveLookup<V>(a: PhpArray<V>, k: Key, j: Key)
    requires j != k
    ensures Lookup(Remove(a, k), j) == Lookup(a, j)
  {
    if a != [] {
      RemoveLookup(a[1..], k, j);
    }
  }

  /** `unset` distributes over the two halves of an array. */
  lemma {:induction false} RemoveConcat<V>(a: PhpArray<V>, b: PhpArray<V>, k: Key)
    ensures Remove(a + b, k) == Remove(a, k) + Remove(b, k)
  {
    if a == [] {
      assert a + b == b;
    } else {
      assert (a + b)[0] == a[0];
      assert (a + b)[1..] == a[1..] + b;
      RemoveConcat(a[1..], b, k);
    }
  }

  /** When `k` occurs only at position `n`, `unset($a[$k])` takes out exactly that entry. */
  lemma RemoveSingle<V>(a: PhpArray<V>, n: nat, k: Key)
    requires n < |a| && a[n].0 == k
    requires k !in Keys(a[..n]) && k !in Keys(a[n + 1..])
    ensures Remove(a, k) == a[..n] + a[n + 1..]
  {
    var before, at, after := a[..n], [a[n]], a[n + 1..];
    assert a == before + at + after;
    assert Remove(at, k) == Remove([], k) == [];
    RemoveConcat(before + at, after, k);
    RemoveConcat(before, at, k);
  }

  /** With unique keys, the first entry with key `k` is the only one. */
  lemma OnlyOccurrence<V>(a: PhpArray<V>, k: Key)
    requires UniqueKeys(a) && k in Keys(a)
    ensures k !in Keys(a[..IndexOf(a, k)]) && k !in Keys(a[IndexOf(a, k) + 1..])
  {
    var n := IndexOf(a, k);
    var after := a[n + 1..];
    forall i | 0 <= i < |after| ensures Keys(after)[i] != k {
      assert after[i] == a[n + 1 + i];
    }
  }

  /** On a PHP array, `unset($a[$k])` takes out exactly the entry of `k` and keeps the rest in order. */
  lemma RemoveInPlace<V>(a: PhpArray<V>, k: Key)
    requires UniqueKeys(a) && k in Keys(a)
    ensures Remove(a, k) == a[..IndexOf(a, k)] + a[IndexOf(a, k) + 1..]
  {
    OnlyOccurrence(a, k);
    RemoveSingle(a, IndexOf(a, k), k);
  }

  /** Taking one entry out of an array with unique keys leaves unique keys. */
  lemma DropUnique<V>(a: PhpArray<V>, n: nat)
    requires UniqueKeys(a) && n < |a|
    ensures UniqueKeys(a[..n] + a[n + 1..])
  {
    var r := a[..n] + a[n + 1..];
    forall i | 0 <= i < |r| ensures r[i] == a[if i < n then i else i + 1] {
      if i < n {
        assert r[i] == a[..n][i];
      } else {
        assert r[i] == a[n + 1..][i - n];
      }
    }
  }

  /** `unset($a[$k])` keeps the keys unique. */
  lemma RemoveUnique<V>(a: PhpArray<V>, k: Key)
    requires UniqueKeys(a)
    ensures UniqueKeys(Remove(a, k))
  {
    if k in Keys(a) {
      RemoveInPlace(a, k);
      DropUnique(a, IndexOf(a, k));
    }
  }
}
