/** The two result-shaping steps of the raw client: `Vec::truncate`, which
    cuts a scan result down to the requested limit, and the key-only
    projection `into_iter().map(KvPair::into_key).collect()`. */
module Shaping {
  import opened Types

  function Min(a: nat, b: nat): (m: nat)
    ensures m <= a && m <= b
    ensures m == a || m == b
  {
    if a <= b then a else b
  }

  /** `t` is `s` cut down to at most `n` elements: a prefix of `s` that is
      as long as `n` allows. */
  ghost predicate CutTo<T>(t: seq<T>, s: seq<T>, n: nat) {
    |t| == Min(n, |s|) && t <= s
  }

  /** Keeps the first `n` elements of `s` and drops the rest; a no-op when
      `s` is no longer than `n`. */
  function Truncate<T>(s: seq<T>, n: nat): (t: seq<T>)
    ensures |t| == Min(n, |s|)
    ensures forall i :: 0 <= i < |t| ==> t[i] == s[i]
    ensures t <= s
  {
    if n == 0 || |s| == 0 then [] else [s[0]] + Truncate(s[1..], n - 1)
  }

  /** Truncation agrees with the slice `s[..min(n, |s|)]`. */
  lemma TruncateIsSlice<T>(s: seq<T>, n: nat)
    ensures Truncate(s, n) == s[..Min(n, |s|)]
  {
  }

  /** A sequence already within the limit is left alone. */
  lemma TruncateShortIsIdentity<T>(s: seq<T>, n: nat)
    requires |s| <= n
    ensures Truncate(s, n) == s
  {
    TruncateIsSlice(s, n);
  }

  /** Cutting twice to the same limit is cutting once. */
  lemma TruncateIdempotent<T>(s: seq<T>, n: nat)
    ensures Truncate(Truncate(s, n), n) == Truncate(s, n)
  {
    TruncateShortIsIdentity(Truncate(s, n), n);
  }

  /** `ks` lists the keys of `ps`, in the same order. */
  ghost predicate KeysMatch(ks: seq<Key>, ps: seq<KvPair>) {
    |ks| == |ps| && forall i :: 0 <= i < |ks| ==> ks[i] == ps[i].key
  }

  /** The key-only projection of a sequence of pairs. */
  function KeysOf(ps: seq<KvPair>): (ks: seq<Key>)
    ensures |ks| == |ps|
    ensures forall i :: 0 <= i < |ps| ==> ks[i] == ps[i].key
  {
    if |ps| == 0 then [] else [ps[0].IntoKey()] + KeysOf(ps[1..])
  }

  /** The projection agrees with mapping `into_key` over every index. */
  lemma KeysOfIsPointwise(ps: seq<KvPair>)
    ensures KeysOf(ps) == seq(|ps|, i requires 0 <= i < |ps| => ps[i].key)
  {
  }

  /** Projecting after cutting equals cutting after projecting. */
  lemma {:induction false} KeysOfTruncate(ps: seq<KvPair>, n: nat)
    ensures KeysOf(Truncate(ps, n)) == Truncate(KeysOf(ps), n)
  {
    if n == 0 || |ps| == 0 {
    } else {
      KeysOfTruncate(ps[1..], n - 1);
      assert KeysOf(ps)[1..] == KeysOf(ps[1..]);
    }
  }
}
