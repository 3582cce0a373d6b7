/** Shallow merge of two records, JavaScript's `{...base, ...top}`. */
module ShallowMerge {

  /** Every key of `top` takes its value from `top`; every other key of `base` keeps its value. */
  function Merge<K, V>(base: map<K, V>, top: map<K, V>): (r: map<K, V>)
    ensures r.Keys == base.Keys + top.Keys
    ensures forall k :: k in top ==> r[k] == top[k]
    ensures forall k :: k in base && k !in top ==> r[k] == base[k]
  {
    base + top
  }

  /** Merging the same overrides a second time changes nothing. */
  lemma MergeIdempotent<K, V>(base: map<K, V>, top: map<K, V>)
    ensures Merge(Merge(base, top), top) == Merge(base, top)
  {
  }

  /** Merging no overrides leaves the record as it was. */
  lemma MergeEmpty<K, V>(base: map<K, V>)
    ensures Merge(base, map[]) == base
  {
  }

  /** Two merges in a row equal one merge of the combined overrides: no override is lost. */
  lemma MergeSequential<K, V>(base: map<K, V>, p: map<K, V>, q: map<K, V>)
    ensures Merge(Merge(base, p), q) == Merge(base, Merge(p, q))
  {
  }

  /** When `top` already has every key of `base`, the merge is exactly `top`. */
  lemma MergeCovered<K, V>(base: map<K, V>, top: map<K, V>)
    requires base.Keys <= top.Keys
    ensures Merge(base, top) == top
  {
  }
}
