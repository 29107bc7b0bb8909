/** JavaScript's `Map` and `Set` remember insertion order: a key set again
    keeps its place, a value added twice is kept once, at its first place.
    These two value types model that. */
module Ordered {

  predicate NoDuplicates<T(==)>(s: seq<T>) {
    forall i, j :: 0 <= i < j < |s| ==> s[i] != s[j]
  }

  // ---------------------------------------------------------------------
  // Insertion-ordered map (`new Map()`, `map.set`, `[...map.values()]`)
  // ---------------------------------------------------------------------

  datatype OrderedMap<K(==,!new), V> = OrderedMap(keys: seq<K>, entries: map<K, V>) {

    /** Every key is listed once, in insertion order, and only keys are listed. */
    ghost predicate Valid() {
      NoDuplicates(keys) && (forall k :: k in entries <==> k in keys)
    }

    /** `map.set(k, v)`: the value changes; a new key goes at the end, an
        existing key keeps its place. */
    function Set(k: K, v: V): (r: OrderedMap<K, V>)
      requires Valid()
      ensures r.Valid()
      ensures r.entries == entries[k := v]
      ensures k in entries ==> r.keys == keys
      ensures k !in entries ==> r.keys == keys + [k]
    {
      if k in entries then OrderedMap(keys, entries[k := v])
      else OrderedMap(keys + [k], entries[k := v])
    }

    /** `[...map.values()]`, in key order. */
    function Values(): (r: seq<V>)
      requires Valid()
      ensures |r| == |keys|
      ensures forall i :: 0 <= i < |keys| ==> r[i] == entries[keys[i]]
    {
      seq(|keys|, i requires 0 <= i < |keys| => entries[keys[i]])
    }
  }

  function EmptyMap<K(==,!new), V>(): (r: OrderedMap<K, V>)
    ensures r.Valid() && r.keys == [] && r.entries == map[]
  {
    OrderedMap([], map[])
  }

  /** Concatenation of sequences is associative. */
  lemma AppendAssoc<T>(a: seq<T>, b: seq<T>, c: seq<T>)
    ensures (a + b) + c == a + (b + c)
  {
  }

  // ---------------------------------------------------------------------
  // Insertion-ordered set (`new Set(xs)`, `set.add(x)`, `[...set]`)
  // ---------------------------------------------------------------------

  /** `set.add(x)` on the set listed by `s`. */
  function Add<T(==,!new)>(s: seq<T>, x: T): (r: seq<T>)
    ensures NoDuplicates(s) ==> NoDuplicates(r)
    ensures forall y :: y in r <==> y in s || y == x
    ensures |s| <= |r|
    ensures r[..|s|] == s
  {
    if x in s then s else s + [x]
  }

  /** Adding every element of `xs` in order to the set listed by `acc`. */
  function AddAll<T(==,!new)>(acc: seq<T>, xs: seq<T>): (r: seq<T>)
    decreases |xs|
  {
    if xs == [] then acc else AddAll(Add(acc, xs[0]), xs[1..])
  }

  /** `[...new Set(xs)]`: the elements of `xs`, each once, at its first place. */
  function Dedup<T(==,!new)>(xs: seq<T>): seq<T> {
    AddAll([], xs)
  }

  lemma {:induction false} AddAllProperties<T(!new)>(acc: seq<T>, xs: seq<T>)
    requires NoDuplicates(acc)
    ensures NoDuplicates(AddAll(acc, xs))
    ensures forall y :: y in AddAll(acc, xs) <==> y in acc || y in xs
    ensures |acc| <= |AddAll(acc, xs)| && AddAll(acc, xs)[..|acc|] == acc
    decreases |xs|
  {
    if xs != [] {
      var a := Add(acc, xs[0]);
      AddAllProperties(a, xs[1..]);
      var r := AddAll(acc, xs);
      assert r == AddAll(a, xs[1..]);
      PrefixOfPrefix(acc, a, r);
      forall y
        ensures y in r <==> y in acc || y in xs
      {
        HeadTailMembers(xs, y);
      }
    }
  }

  lemma PrefixOfPrefix<T>(a: seq<T>, b: seq<T>, c: seq<T>)
    requires |a| <= |b| <= |c| && b[..|a|] == a && c[..|b|] == b
    ensures c[..|a|] == a
  {
    assert c[..|a|] == c[..|b|][..|a|];
  }

  lemma HeadTailMembers<T>(xs: seq<T>, y: T)
    requires xs != []
    ensures y in xs <==> y == xs[0] || y in xs[1..]
  {
    assert xs == [xs[0]] + xs[1..];
  }

  /** `new Set(xs)` keeps every element once, loses none and adds none. */
  lemma DedupProperties<T(!new)>(xs: seq<T>)
    ensures NoDuplicates(Dedup(xs))
    ensures forall y :: y in Dedup(xs) <==> y in xs
    ensures |Dedup(xs)| <= |xs|
  {
    AddAllProperties([], xs);
    DedupLength([], xs);
  }

  lemma {:induction false} DedupLength<T(!new)>(acc: seq<T>, xs: seq<T>)
    ensures |AddAll(acc, xs)| <= |acc| + |xs|
    decreases |xs|
  {
    if xs != [] {
      DedupLength(Add(acc, xs[0]), xs[1..]);
    }
  }

  /** A list without duplicates is its own de-duplication. */
  lemma {:induction false} DedupOfDistinct<T(!new)>(acc: seq<T>, xs: seq<T>)
    requires NoDuplicates(acc + xs)
    ensures AddAll(acc, xs) == acc + xs
    decreases |xs|
  {
    if xs != [] {
      assert xs[0] !in acc by {
        forall i | 0 <= i < |acc| ensures acc[i] != xs[0] {
          assert (acc + xs)[i] != (acc + xs)[|acc|];
        }
      }
      assert acc + xs == (acc + [xs[0]]) + xs[1..];
      DedupOfDistinct(acc + [xs[0]], xs[1..]);
    }
  }

  /** Adding the elements of `a` and then those of `b` is adding `a + b`. */
  lemma {:induction false} AddAllAppend<T(!new)>(acc: seq<T>, a: seq<T>, b: seq<T>)
    ensures AddAll(AddAll(acc, a), b) == AddAll(acc, a + b)
    decreases |a|
  {
    if a != [] {
      assert (a + b)[0] == a[0];
      assert (a + b)[1..] == a[1..] + b;
      AddAllAppend(Add(acc, a[0]), a[1..], b);
    } else {
      assert a + b == b;
    }
  }
}
