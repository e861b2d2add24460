/**
 * Python dicts remember insertion order: `d[k] = v` on a new key appends it,
 * on an existing key replaces the value in place. The parser's `columns`
 * dict and `dict(zip(column_names, row))` both behave this way, so they are
 * modelled as sequences of (key, value) pairs.
 */
module OrderedMaps {
  import opened Wrappers

  function Keys<K(==), V>(m: seq<(K, V)>): (ks: seq<K>)
    ensures |ks| == |m|
    ensures forall i :: 0 <= i < |m| ==> ks[i] == m[i].0
  {
    seq(|m|, i requires 0 <= i < |m| => m[i].0)
  }

  predicate Distinct<T(==)>(xs: seq<T>) {
    forall i, j :: 0 <= i < j < |xs| ==> xs[i] != xs[j]
  }

  /** `d[k] = v` */
  function Assign<K(==), V>(m: seq<(K, V)>, k: K, v: V): seq<(K, V)> {
    if |m| == 0 then [(k, v)]
    else if m[0].0 == k then [(k, v)] + m[1..]
    else [m[0]] + Assign(m[1..], k, v)
  }

  /** `d.get(k)` */
  function Lookup<K(==), V>(m: seq<(K, V)>, k: K): Option<V> {
    if |m| == 0 then None
    else if m[0].0 == k then Some(m[0].1)
    else Lookup(m[1..], k)
  }

  /** The dict built by assigning the pairs one after the other, as `dict(pairs)` does. */
  function AssignAll<K(==), V>(ps: seq<(K, V)>): seq<(K, V)> {
    if |ps| == 0 then [] else Assign(AssignAll(ps[..|ps| - 1]), ps[|ps| - 1].0, ps[|ps| - 1].1)
  }

  /** The elements of xs in order of first occurrence, each once. */
  function Dedup<T(==)>(xs: seq<T>): seq<T> {
    if |xs| == 0 then []
    else
      var d := Dedup(xs[..|xs| - 1]);
      if xs[|xs| - 1] in d then d else d + [xs[|xs| - 1]]
  }

  /** The value of the last pair whose key is k. */
  function LastValue<K(==), V>(ps: seq<(K, V)>, k: K): Option<V> {
    if |ps| == 0 then None
    else if ps[|ps| - 1].0 == k then Some(ps[|ps| - 1].1)
    else LastValue(ps[..|ps| - 1], k)
  }

  /** `dict(pairs + [(k, v)])` is `dict(pairs)` followed by `d[k] = v`. */
  lemma AssignAllSnoc<K, V>(ps: seq<(K, V)>, k: K, v: V)
    ensures AssignAll(ps + [(k, v)]) == Assign(AssignAll(ps), k, v)
  {
    assert (ps + [(k, v)])[..|ps|] == ps;
  }

  /** Assigning a new key appends it; assigning an existing key keeps the key order. */
  lemma {:induction false} AssignKeys<K, V>(m: seq<(K, V)>, k: K, v: V)
    ensures Keys(Assign(m, k, v)) == if k in Keys(m) then Keys(m) else Keys(m) + [k]
  {
    if |m| > 0 {
      var tail := m[1..];
      AssignKeys(tail, k, v);
      assert Keys(m) == [m[0].0] + Keys(tail);
      if m[0].0 != k {
        var a := Assign(tail, k, v);
        assert Assign(m, k, v) == [m[0]] + a;
        assert Keys([m[0]] + a) == [m[0].0] + Keys(a);
        assert (k in Keys(m)) == (k in Keys(tail));
        if k !in Keys(tail) {
          assert Keys(a) == Keys(tail) + [k];
          assert [m[0].0] + (Keys(tail) + [k]) == Keys(m) + [k];
        }
      } else {
        assert Keys(Assign(m, k, v)) == [k] + Keys(tail);
      }
    }
  }

  /** Assigning a key that is not there yet appends the pair at the end. */
  lemma {:induction false} AssignNew<K, V>(m: seq<(K, V)>, k: K, v: V)
    requires k !in Keys(m)
    ensures Assign(m, k, v) == m + [(k, v)]
  {
    if |m| > 0 {
      assert Keys(m) == [m[0].0] + Keys(m[1..]);
      AssignNew(m[1..], k, v);
      assert [m[0]] + (m[1..] + [(k, v)]) == m + [(k, v)];
    }
  }

  /** After `d[k] = v`, reading k gives v and every other key is unchanged. */
  lemma {:induction false} AssignLookup<K, V>(m: seq<(K, V)>, k: K, v: V, k': K)
    ensures Lookup(Assign(m, k, v), k') == if k' == k then Some(v) else Lookup(m, k')
  {
    if |m| > 0 && m[0].0 != k {
      AssignLookup(m[1..], k, v, k');
    }
  }

  /** The keys of `dict(pairs)` are the keys of the pairs in order of first occurrence. */
  lemma {:induction false} AssignAllKeys<K, V>(ps: seq<(K, V)>)
    ensures Keys(AssignAll(ps)) == Dedup(Keys(ps))
  {
    if |ps| > 0 {
      var init := ps[..|ps| - 1];
      AssignAllKeys(init);
      AssignKeys(AssignAll(init), ps[|ps| - 1].0, ps[|ps| - 1].1);
      assert Keys(ps)[..|ps| - 1] == Keys(init);
    }
  }

  /** Each key of `dict(pairs)` holds the value of its last pair. */
  lemma {:induction false} AssignAllLookup<K, V>(ps: seq<(K, V)>, k: K)
    ensures Lookup(AssignAll(ps), k) == LastValue(ps, k)
  {
    if |ps| > 0 {
      var init := ps[..|ps| - 1];
      AssignAllLookup(init, k);
      AssignLookup(AssignAll(init), ps[|ps| - 1].0, ps[|ps| - 1].1, k);
    }
  }

  /** Dedup keeps every element exactly once. */
  lemma {:induction false} DedupDistinct<T>(xs: seq<T>)
    ensures Distinct(Dedup(xs))
    ensures forall x :: x in Dedup(xs) <==> x in xs
  {
    if |xs| > 0 {
      var init := xs[..|xs| - 1];
      DedupDistinct(init);
      assert xs == init + [xs[|xs| - 1]];
    }
  }

  /** Lookup finds exactly the keys that are present. */
  lemma {:induction false} LookupPresent<K, V>(m: seq<(K, V)>, k: K)
    ensures Lookup(m, k).Some? <==> k in Keys(m)
  {
    if |m| > 0 {
      LookupPresent(m[1..], k);
      assert Keys(m) == [m[0].0] + Keys(m[1..]);
    }
  }
}
