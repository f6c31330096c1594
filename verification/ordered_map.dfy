/** A JavaScript `Map` keyed by strings: an association list in insertion
    order. `set` on a present key replaces its value where it stands; on a
    new key it appends. Iteration (`entries()`, `values()`) follows this
    order, which fixes the order in which the relay server fans out
    messages and lists users. */
module OrderedMap {
  import opened Wrappers

  type Entries<V> = seq<(string, V)>

  function Keys<V>(m: Entries<V>): seq<string> {
    if m == [] then [] else [m[0].0] + Keys(m[1..])
  }

  /** `m.has(k)` */
  predicate Has<V>(m: Entries<V>, k: string) {
    m != [] && (m[0].0 == k || Has(m[1..], k))
  }

  /** No key occurs twice: what a `Map` always is. */
  predicate UniqueKeys<V>(m: Entries<V>) {
    m == [] || (!Has(m[1..], m[0].0) && UniqueKeys(m[1..]))
  }

  /** `m.values()` in iteration order. */
  function Values<V>(m: Entries<V>): seq<V> {
    if m == [] then [] else [m[0].1] + Values(m[1..])
  }

  /** `m.get(k)` */
  function Get<V>(m: Entries<V>, k: string): (r: Option<V>)
    ensures r.Some? <==> Has(m, k)
    ensures r.Some? ==> r.value in Values(m)
  {
    if m == [] then None
    else if m[0].0 == k then Some(m[0].1)
    else Get(m[1..], k)
  }

  /** `m.set(k, v)` */
  function Set<V>(m: Entries<V>, k: string, v: V): (r: Entries<V>)
    ensures Get(r, k) == Some(v)
    ensures forall k' :: k' != k ==> Get(r, k') == Get(m, k')
    ensures forall k' :: Has(r, k') <==> Has(m, k') || k' == k
    ensures Has(m, k) ==> Keys(r) == Keys(m)
    ensures !Has(m, k) ==> Keys(r) == Keys(m) + [k]
    ensures UniqueKeys(m) ==> UniqueKeys(r)
  {
    if m == [] then [(k, v)]
    else if m[0].0 == k then [(k, v)] + m[1..]
    else [m[0]] + Set(m[1..], k, v)
  }

  /** `m.delete(k)` */
  function Delete<V>(m: Entries<V>, k: string): (r: Entries<V>)
    ensures !Has(r, k)
    ensures forall k' :: k' != k ==> Get(r, k') == Get(m, k')
    ensures forall k' :: Has(r, k') <==> Has(m, k') && k' != k
    ensures UniqueKeys(m) ==> UniqueKeys(r)
    ensures |r| <= |m|
  {
    if m == [] then []
    else if m[0].0 == k then Delete(m[1..], k)
    else [m[0]] + Delete(m[1..], k)
  }

  /** Deleting a key that is absent leaves the map as it was. */
  lemma {:induction false} DeleteAbsent<V>(m: Entries<V>, k: string)
    requires !Has(m, k)
    ensures Delete(m, k) == m
  {
    if m != [] {
      DeleteAbsent(m[1..], k);
    }
  }

  /** On a map, deleting a key keeps every other entry in its place. */
  lemma {:induction false} DeleteKeepsOrder<V>(m: Entries<V>, k: string, i: nat)
    requires UniqueKeys(m) && i < |m| && m[i].0 == k
    ensures Delete(m, k) == m[..i] + m[i + 1..]
  {
    var t := m[1..];
    if i == 0 {
      DeleteAbsent(t, k);
      assert m[..0] + m[1..] == t;
    } else {
      HasAt(t, i - 1);
      DeleteKeepsOrder(t, k, i - 1);
      assert t[..i - 1] + t[i..] == m[1..i] + m[i + 1..];
      assert m[..i] == [m[0]] + m[1..i];
    }
  }

  lemma {:induction false} HasAt<V>(m: Entries<V>, i: nat)
    requires i < |m|
    ensures Has(m, m[i].0)
  {
    if i > 0 {
      HasAt(m[1..], i - 1);
    }
  }

  /** Has is membership in Keys. */
  lemma {:induction false} HasIsInKeys<V>(m: Entries<V>, k: string)
    ensures Has(m, k) <==> k in Keys(m)
  {
    if m != [] {
      HasIsInKeys(m[1..], k);
    }
  }
}
