/** Bulk updates of a map, and how a loop builds one of them key by key. */
module Maps {

  /** `m` with the entries of `n` for the keys in `ks` written over it. */
  function Overlay<K, V>(m: map<K, V>, n: map<K, V>, ks: set<K>): map<K, V>
    requires ks <= n.Keys
  {
    m + (map k | k in ks :: n[k])
  }

  /** `m` with `v` written at every key in `ks`. */
  function Filled<K, V>(m: map<K, V>, ks: set<K>, v: V): map<K, V> {
    m + (map k | k in ks :: v)
  }

  /** `m` without `gone`, except that `base` is put back where it has an entry. */
  function Restored<K, V>(m: map<K, V>, base: map<K, V>, gone: set<K>): map<K, V> {
    (m - gone) + (map k | k in base && k in gone :: base[k])
  }

  lemma OverlayOneMore<K, V>(m: map<K, V>, n: map<K, V>, ks: set<K>, k: K)
    requires ks <= n.Keys && k in n
    ensures Overlay(m, n, ks + {k}) == Overlay(m, n, ks)[k := n[k]]
  {
  }

  lemma FilledOneMore<K, V>(m: map<K, V>, ks: set<K>, k: K, v: V)
    ensures Filled(m, ks + {k}, v) == Filled(m, ks, v)[k := v]
  {
  }

  lemma RestoredOneMore<K, V>(m: map<K, V>, base: map<K, V>, gone: set<K>, k: K)
    ensures k in base ==> Restored(m, base, gone + {k}) == Restored(m, base, gone)[k := base[k]]
    ensures k !in base ==> Restored(m, base, gone + {k}) == Restored(m, base, gone) - {k}
  {
  }

  /** `m` with the values of `n` taken over for the keys in `ks`; no key is added. */
  function Taken<K, V>(m: map<K, V>, n: map<K, V>, ks: set<K>): map<K, V> {
    map k | k in m :: if k in n && k in ks then n[k] else m[k]
  }

  lemma TakenNone<K, V>(m: map<K, V>, n: map<K, V>)
    ensures Taken(m, n, {}) == m
  {
  }

  lemma TakenOneMore<K, V>(m: map<K, V>, n: map<K, V>, ks: set<K>, k: K)
    requires k in m
    ensures Taken(m, n, ks + {k}) == if k in n then Taken(m, n, ks)[k := n[k]] else Taken(m, n, ks)
  {
  }
}
