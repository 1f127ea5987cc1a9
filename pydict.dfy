/**
 * A Python dict: a finite map whose keys also keep their insertion order,
 * which is the order `.values()` and `.items()` visit them in.
 */
module PyDict {

  datatype Dict<K(==), V> = Dict(entries: map<K, V>, order: seq<K>)
  {
    /** The order lists every key once and nothing else. */
    ghost predicate Valid()
    {
      && (forall i, j :: 0 <= i < j < |order| ==> order[i] != order[j])
      && Listed()
    }

    /** The order holds exactly the keys, so a walk over it visits every key. */
    ghost predicate Listed()
    {
      && (forall i :: 0 <= i < |order| ==> order[i] in entries)
      && (forall k :: k in entries ==> k in order)
    }

    /** `len(d)` */
    function Len(): nat
    {
      |entries|
    }

    /** `d[k] = v`: a new key goes last, an existing key keeps its place. */
    function Set(k: K, v: V): (d: Dict<K, V>)
      ensures d.entries == entries[k := v]
      ensures Valid() ==> d.Valid()
      ensures k in entries ==> d.order == order
      ensures k !in entries ==> d.order == order + [k]
    {
      if k in entries then Dict(entries[k := v], order) else Dict(entries[k := v], order + [k])
    }

    /** `del d[k]` when `k in d`; nothing otherwise. */
    function Del(k: K): (d: Dict<K, V>)
      ensures d.entries == entries - {k}
      ensures Valid() ==> d.Valid()
      ensures Valid() && k !in entries ==> d == this
      ensures forall i :: 0 <= i < |d.order| ==> d.order[i] != k
    {
      Dict(entries - {k}, Without(order, k))
    }

    /** `del d[k]` keeps the other keys in the order they had. */
    lemma DelKeepsOrder(k: K, i: nat)
      requires Valid() && i < |order| && order[i] == k
      ensures Del(k).order == order[..i] + order[i + 1..]
    {
      WithoutKeepsOrder(order, k, i);
    }
  }

  /** The empty dict `{}`. */
  function Empty<K(==), V>(): (d: Dict<K, V>)
    ensures d.Valid() && d.entries == map[]
  {
    Dict(map[], [])
  }

  /** `s` with every occurrence of `k` removed, the rest in order. */
  function Without<K(==)>(s: seq<K>, k: K): (r: seq<K>)
    ensures forall i :: 0 <= i < |r| ==> r[i] != k && r[i] in s
    ensures forall x :: x in s && x != k ==> x in r
    ensures (forall i, j :: 0 <= i < j < |s| ==> s[i] != s[j]) ==> (forall i, j :: 0 <= i < j < |r| ==> r[i] != r[j])
    ensures k !in s ==> r == s
  {
    if s == [] then []
    else if s[0] == k then Without(s[1..], k)
    else
      var rest := Without(s[1..], k);
      assert forall i :: 0 <= i < |rest| ==> rest[i] in s[1..];
      [s[0]] + rest
  }

  /** In a list without repeats, removing the key at position `i` keeps the other keys in their order. */
  lemma {:induction false} WithoutKeepsOrder<K>(s: seq<K>, k: K, i: nat)
    requires forall a, b :: 0 <= a < b < |s| ==> s[a] != s[b]
    requires i < |s| && s[i] == k
    ensures Without(s, k) == s[..i] + s[i + 1..]
  {
    if i == 0 {
      forall j | 0 <= j < |s[1..]| ensures s[1..][j] != k {
        assert s[1..][j] == s[j + 1];
      }
      assert s[..0] + s[1..] == s[1..];
    } else {
      assert s[0] != s[i];
      WithoutKeepsOrder(s[1..], k, i - 1);
      assert [s[0]] + (s[1..][..i - 1] + s[1..][i..]) == s[..i] + s[i + 1..];
    }
  }

  /**
   * Part way through a walk over `d` that rewrites its values in place into
   * those of `target`: the values at the keys in `visited` are rewritten, the
   * others are as they were, and the keys and their order are untouched.
   */
  ghost predicate RewrittenOn<K, V>(r: Dict<K, V>, d: Dict<K, V>, visited: set<K>, target: Dict<K, V>)
  {
    && r.order == d.order && r.entries.Keys == d.entries.Keys && target.entries.Keys == d.entries.Keys
    && forall k :: k in r.entries ==>
         r.entries[k] == (if k in visited then target.entries[k] else d.entries[k])
  }

  /** Rewriting the value at one more key keeps the walk's invariant. */
  lemma RewriteNext<K, V>(r: Dict<K, V>, d: Dict<K, V>, visited: set<K>, target: Dict<K, V>, k: K)
    requires RewrittenOn(r, d, visited, target) && k in d.entries
    ensures RewrittenOn(r.(entries := r.entries[k := target.entries[k]]), d, visited + {k}, target)
  { }

  /** Once every key in the order is visited, the walk has produced the target. */
  lemma RewriteDone<K, V>(r: Dict<K, V>, d: Dict<K, V>, visited: set<K>, target: Dict<K, V>)
    requires RewrittenOn(r, d, visited, target) && d.Listed() && target.order == d.order
    requires forall j :: 0 <= j < |d.order| ==> d.order[j] in visited
    ensures r == target
  {
    assert r.entries == target.entries;
  }

  /** Marking the key at position `i` as visited extends the visited prefix by one. */
  lemma VisitNext<K>(keys: seq<K>, i: nat, visited: set<K>)
    requires i < |keys|
    requires forall j :: 0 <= j < i ==> keys[j] in visited
    ensures forall j :: 0 <= j < i + 1 ==> keys[j] in visited + {keys[i]}
  { }
}
