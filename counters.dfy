/**
 A Python `collections.Counter` as the program uses it: a dict from keys to
 counts that iterates in insertion order. It is modelled as the list of its
 (key, count) entries in that order; `c[k] += n` is `Add(c, k, n)`.
 */
module Counters {

  /** The keys of a counter, in iteration order. */
  function Keys<K>(c: seq<(K, nat)>): (ks: seq<K>)
    ensures |ks| == |c|
    ensures forall i :: 0 <= i < |c| ==> ks[i] == c[i].0
  {
    seq(|c|, i requires 0 <= i < |c| => c[i].0)
  }

  /** No key occurs twice, as in any dict. */
  predicate DistinctKeys<K(==)>(c: seq<(K, nat)>) {
    forall i, j :: 0 <= i < j < |c| ==> c[i].0 != c[j].0
  }

  /** Every count is positive. */
  predicate Positive<K>(c: seq<(K, nat)>) {
    forall i :: 0 <= i < |c| ==> c[i].1 > 0
  }

  /** No element of a sequence occurs twice. */
  predicate Distinct<T(==)>(s: seq<T>) {
    forall i, j :: 0 <= i < j < |s| ==> s[i] != s[j]
  }

  /** `c[k]`: a missing key reads as 0. */
  function Get<K(==)>(c: seq<(K, nat)>, k: K): (n: nat)
    ensures k !in Keys(c) ==> n == 0
  {
    if c == [] then 0
    else if c[0].0 == k then c[0].1
    else (assert Keys(c[1..]) == Keys(c)[1..]; Get(c[1..], k))
  }

  /** `sum(c.values())`. */
  function Total<K>(c: seq<(K, nat)>): nat {
    if c == [] then 0 else c[0].1 + Total(c[1..])
  }

  /** `c[k] += n`: an existing entry is updated where it stands, a new key
      is appended at the end (even when `n` is 0). */
  function Add<K(==)>(c: seq<(K, nat)>, k: K, n: nat): seq<(K, nat)> {
    if c == [] then [(k, n)]
    else if c[0].0 == k then [(k, c[0].1 + n)] + c[1..]
    else [c[0]] + Add(c[1..], k, n)
  }

  /** After `c[k] += n`, `k` reads `n` more and every other key reads the
      same as before. */
  lemma {:induction false} AddGet<K(!new)>(c: seq<(K, nat)>, k: K, n: nat)
    ensures Get(Add(c, k, n), k) == Get(c, k) + n
    ensures forall k' :: k' != k ==> Get(Add(c, k, n), k') == Get(c, k')
  {
    if c != [] && c[0].0 != k {
      AddGet(c[1..], k, n);
      assert ([c[0]] + Add(c[1..], k, n))[1..] == Add(c[1..], k, n);
    }
  }

  /** `c[k] += n` keeps the keys in place and appends `k` when it is new. */
  lemma {:induction false} AddKeys<K>(c: seq<(K, nat)>, k: K, n: nat)
    ensures Keys(Add(c, k, n)) == if k in Keys(c) then Keys(c) else Keys(c) + [k]
  {
    if c != [] {
      KeysCons(c[0], c[1..]);
      assert [c[0]] + c[1..] == c;
      if c[0].0 == k {
        KeysCons((k, c[0].1 + n), c[1..]);
      } else {
        var ks := Keys(c[1..]);
        AddKeys(c[1..], k, n);
        KeysCons(c[0], Add(c[1..], k, n));
        assert (k in Keys(c)) == (k in ks);
        if k !in ks {
          assert [c[0].0] + (ks + [k]) == [c[0].0] + ks + [k];
        }
      }
    }
  }

  lemma KeysCons<K>(x: (K, nat), rest: seq<(K, nat)>)
    ensures Keys([x] + rest) == [x.0] + Keys(rest)
  {
  }

  /** `c[k] += n` adds `n` to the sum of the counts. */
  lemma {:induction false} AddTotal<K>(c: seq<(K, nat)>, k: K, n: nat)
    ensures Total(Add(c, k, n)) == Total(c) + n
  {
    if c != [] {
      if c[0].0 == k {
        assert ([(k, c[0].1 + n)] + c[1..])[1..] == c[1..];
      } else {
        AddTotal(c[1..], k, n);
        assert ([c[0]] + Add(c[1..], k, n))[1..] == Add(c[1..], k, n);
      }
    }
  }

  /** A counter built by `Add` from the empty one keeps its keys distinct. */
  lemma {:induction false} AddKeepsDistinct<K(!new)>(c: seq<(K, nat)>, k: K, n: nat)
    requires DistinctKeys(c)
    ensures DistinctKeys(Add(c, k, n))
  {
    var r := Add(c, k, n);
    AddKeys(c, k, n);
    forall i, j | 0 <= i < j < |r| ensures r[i].0 != r[j].0 {
      assert Keys(r)[i] == r[i].0 && Keys(r)[j] == r[j].0;
      if k !in Keys(c) && j == |c| {
        assert Keys(c)[i] == Keys(r)[i];
      } else {
        assert Keys(c)[i] == Keys(r)[i] && Keys(c)[j] == Keys(r)[j];
      }
    }
  }

  /** In a counter with distinct keys, each entry's count is what `Get`
      reads for its key. */
  lemma {:induction false} GetAtEntry<K>(c: seq<(K, nat)>, i: nat)
    requires DistinctKeys(c) && i < |c|
    ensures Get(c, c[i].0) == c[i].1
  {
    if i > 0 {
      assert DistinctKeys(c[1..]);
      assert c[1..][i - 1] == c[i];
      GetAtEntry(c[1..], i - 1);
    }
  }

  /** Adding a positive amount keeps every count positive. */
  lemma {:induction false} AddPositive<K>(c: seq<(K, nat)>, k: K, n: nat)
    requires Positive(c) && n > 0
    ensures Positive(Add(c, k, n))
  {
    if c != [] && c[0].0 != k {
      AddPositive(c[1..], k, n);
    }
  }
}
