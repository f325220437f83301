/** Running totals over an ordered list of keys: what an accumulating
    `for…in` loop computes, stated as a function so that lemmas can reason
    about it. */
module Sums {

  /** No key is listed twice. */
  predicate Distinct<K(==)>(s: seq<K>)
  {
    forall i, j :: 0 <= i < j < |s| ==> s[i] != s[j]
  }

  /** The left-to-right total `((0 + term[k0]) + term[k1]) + …` over `keys`. */
  function Sum<K(==)>(keys: seq<K>, term: map<K, real>): real
    requires forall k <- keys :: k in term
  {
    if keys == [] then 0.0 else Sum(Front(keys), term) + term[keys[|keys| - 1]]
  }

  /** All keys but the last one. */
  function Front<K(==)>(keys: seq<K>): (p: seq<K>)
    requires keys != []
    ensures |p| == |keys| - 1
    ensures forall k <- p :: k in keys
    ensures keys == p + [keys[|keys| - 1]]
  {
    keys[..|keys| - 1]
  }

  /** Extending a prefix by one key adds that key's term: the step of an
      accumulating loop. */
  lemma SumStep<K>(keys: seq<K>, term: map<K, real>, n: nat)
    requires forall k <- keys :: k in term
    requires n < |keys|
    ensures keys[n] in term
    ensures Sum(keys[..n + 1], term) == Sum(keys[..n], term) + term[keys[n]]
  {
    assert Front(keys[..n + 1]) == keys[..n];
  }

  /** A total of zero terms is zero. */
  lemma {:induction false} SumOfZeros<K>(keys: seq<K>, term: map<K, real>)
    requires forall k <- keys :: k in term && term[k] == 0.0
    ensures Sum(keys, term) == 0.0
  {
    if keys != [] {
      SumOfZeros(Front(keys), term);
    }
  }

  /** Totals of terms that agree on every listed key are equal. */
  lemma {:induction false} SumAgree<K>(keys: seq<K>, t: map<K, real>, u: map<K, real>)
    requires forall j <- keys :: j in t && j in u && t[j] == u[j]
    ensures Sum(keys, t) == Sum(keys, u)
  {
    if keys != [] {
      SumAgree(Front(keys), t, u);
    }
  }

  /** When the terms differ only at a key listed exactly once, the totals
      differ by the difference of the two terms at that key. */
  lemma {:induction false} SumChangeOne<K>(keys: seq<K>, t: map<K, real>, u: map<K, real>, k: K)
    requires forall j <- keys :: j in t && j in u
    requires Distinct(keys) && k in keys
    requires forall j <- keys | j != k :: t[j] == u[j]
    ensures Sum(keys, u) == Sum(keys, t) - t[k] + u[k]
  {
    var p, last := Front(keys), keys[|keys| - 1];
    FrontDistinct(keys);
    if last == k {
      SumAgree(p, t, u);
    } else {
      assert k in p;
      SumChangeOne(p, t, u, k);
    }
  }

  /** When every term but those of two distinct listed keys is zero, the total
      is the sum of those two terms. */
  lemma {:induction false} SumOfTwo<K>(keys: seq<K>, t: map<K, real>, a: K, b: K)
    requires forall j <- keys :: j in t
    requires Distinct(keys) && a in keys && b in keys && a != b
    requires forall j <- keys | j != a && j != b :: t[j] == 0.0
    ensures Sum(keys, t) == t[a] + t[b]
  {
    var z := map j | j in t :: if j == a || j == b then 0.0 else t[j];
    SumOfZeros(keys, z);
    var za := z[a := t[a]];
    SumChangeOne(keys, z, za, a);
    SumChangeOne(keys, za, t, b);
  }

  /** The front of a list without repetitions has none either, and lacks the
      last key. */
  lemma FrontDistinct<K>(keys: seq<K>)
    requires keys != [] && Distinct(keys)
    ensures Distinct(Front(keys)) && keys[|keys| - 1] !in Front(keys)
  {
    var p := Front(keys);
    forall i, j | 0 <= i < j < |p| ensures p[i] != p[j] {
      assert p[i] == keys[i] && p[j] == keys[j];
    }
    forall n | 0 <= n < |p| ensures p[n] != keys[|keys| - 1] {
      assert p[n] == keys[n];
    }
  }

  /** A total of non-negative terms is at least each listed term. */
  lemma {:induction false} SumAtLeastTerm<K>(keys: seq<K>, term: map<K, real>, k: K)
    requires forall j <- keys :: j in term && 0.0 <= term[j]
    requires k in keys
    ensures 0.0 <= term[k] <= Sum(keys, term)
  {
    var p, last := Front(keys), keys[|keys| - 1];
    if k in p {
      SumAtLeastTerm(p, term, k);
    } else {
      assert k == last;
      SumNonNegative(p, term);
    }
  }

  /** A total of non-negative terms is non-negative. */
  lemma {:induction false} SumNonNegative<K>(keys: seq<K>, term: map<K, real>)
    requires forall j <- keys :: j in term && 0.0 <= term[j]
    ensures 0.0 <= Sum(keys, term)
  {
    if keys != [] {
      SumNonNegative(Front(keys), term);
    }
  }

  /** A list without repetitions has as many elements as its set of keys. */
  lemma {:induction false} DistinctCardinality<K>(s: seq<K>)
    requires Distinct(s)
    ensures |set k | k in s| == |s|
  {
    if s != [] {
      var p, last := Front(s), s[|s| - 1];
      FrontDistinct(s);
      DistinctCardinality(p);
      assert (set k | k in s) == (set k | k in p) + {last};
    }
  }
}
