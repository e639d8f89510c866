/**
 A PHP array used as a dictionary: an insertion-ordered list of (key, value)
 entries in which every key occurs at most once. Writing `$a[$k] = $v`
 replaces the value of an existing key in place (the key keeps its position)
 and appends a new key at the end.
 */
module PhpArray {
  import opened Wrappers

  /** Every key occurs at most once. */
  predicate UniqueKeys<V>(a: seq<(string, V)>)
  {
    forall i, j :: 0 <= i < j < |a| ==> a[i].0 != a[j].0
  }

  /** The keys in insertion order. */
  function Keys<V>(a: seq<(string, V)>): seq<string>
  {
    seq(|a|, i requires 0 <= i < |a| => a[i].0)
  }

  /** `$a[$k] ?? null`: the value stored under `k`, if any. */
  function Get<V>(a: seq<(string, V)>, k: string): (r: Option<V>)
    ensures r.None? <==> k !in Keys(a)
  {
    if a == [] then None
    else if a[0].0 == k then
      assert Keys(a)[0] == k;
      Some(a[0].1)
    else
      assert Keys(a) == [a[0].0] + Keys(a[1..]);
      Get(a[1..], k)
  }

  /** `$a[$k] = $v`. */
  function Set<V>(a: seq<(string, V)>, k: string, v: V): (r: seq<(string, V)>)
    ensures Get(r, k) == Some(v)
    ensures forall j :: j != k ==> Get(r, j) == Get(a, j)
    ensures k in Keys(a) ==> Keys(r) == Keys(a)
    ensures k !in Keys(a) ==> r == a + [(k, v)]
  {
    if a == [] then [(k, v)]
    else if a[0].0 == k then
      var r := [(k, v)] + a[1..];
      assert r[1..] == a[1..];
      assert Keys(r) == Keys(a);
      r
    else
      var rest := Set(a[1..], k, v);
      var r := [a[0]] + rest;
      assert r[1..] == rest;
      assert Keys(a) == [a[0].0] + Keys(a[1..]);
      assert Keys(r) == [a[0].0] + Keys(rest);
      r
  }

  /** Writing to a PHP array never duplicates a key. */
  lemma SetKeepsUniqueKeys<V>(a: seq<(string, V)>, k: string, v: V)
    requires UniqueKeys(a)
    ensures UniqueKeys(Set(a, k, v))
  {
    var r := Set(a, k, v);
    if k in Keys(a) {
      assert Keys(r) == Keys(a);
      forall i, j | 0 <= i < j < |r| ensures r[i].0 != r[j].0 {
        assert Keys(r)[i] == Keys(a)[i] && Keys(r)[j] == Keys(a)[j];
      }
    } else {
      forall i | 0 <= i < |a| ensures a[i].0 != k {
        assert Keys(a)[i] == a[i].0;
      }
    }
  }

  /** Of two writes to the same key only the second one is visible, and the
      array is exactly as if the first had not happened. */
  lemma {:induction false} LastWriteWins<V>(a: seq<(string, V)>, k: string, v1: V, v2: V)
    ensures Set(Set(a, k, v1), k, v2) == Set(a, k, v2)
  {
    if a != [] && a[0].0 != k {
      LastWriteWins(a[1..], k, v1, v2);
      assert Set(a, k, v1)[1..] == Set(a[1..], k, v1);
    }
  }
}
