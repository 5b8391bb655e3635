/** Regrouping facts about sequences, multisets and maps that the proofs call step by step. */
module SeqFacts {
  lemma Assoc<T>(a: seq<T>, b: seq<T>, c: seq<T>)
    ensures a + b + c == a + (b + c)
  {
  }

  lemma LastSplit<T>(s: seq<T>)
    requires s != []
    ensures s == s[..|s| - 1] + [s[|s| - 1]]
  {
  }

  lemma MultisetOfJoin<T>(x: seq<T>, y: seq<T>)
    ensures multiset(x + y) == multiset(x) + multiset(y)
  {
  }

  lemma Overwrite<K, V>(m: map<K, V>, k: K, a: V, b: V)
    ensures m[k := a][k := b] == m[k := b]
  {
  }
}
