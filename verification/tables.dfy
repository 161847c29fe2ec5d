/** Filling a JavaScript object key by key in a loop (`obj[key] = value`):
    a later assignment to the same key overwrites an earlier one; and
    looking an element up in an array with `find`. */
module Tables {
  import opened Wrappers

  /** `s.find(p)`: the first element satisfying `p`, if any. */
  function Find<T>(s: seq<T>, p: T -> bool): (r: Option<T>)
    ensures r.Some? <==> exists i :: 0 <= i < |s| && p(s[i])
    ensures r.Some? ==>
      exists i :: 0 <= i < |s| && s[i] == r.value && p(s[i]) && (forall j :: 0 <= j < i ==> !p(s[j]))
    decreases |s|
  {
    if |s| == 0 then None
    else if p(s[0]) then Some(s[0])
    else
      var r := Find(s[1..], p);
      assert forall i :: 1 <= i < |s| ==> s[i] == s[1..][i - 1];
      r
  }

  /** The object `m` after assigning the pairs of `kvs` in order. */
  function Overwrite<K, V>(m: map<K, V>, kvs: seq<(K, V)>): map<K, V>
    decreases |kvs|
  {
    if |kvs| == 0 then m
    else Overwrite(m, kvs[..|kvs| - 1])[kvs[|kvs| - 1].0 := kvs[|kvs| - 1].1]
  }

  lemma OverwriteAppend<K, V>(m: map<K, V>, kvs: seq<(K, V)>, kv: (K, V))
    ensures Overwrite(m, kvs + [kv]) == Overwrite(m, kvs)[kv.0 := kv.1]
  {
    assert (kvs + [kv])[..|kvs|] == kvs;
  }

  /** The keys afterwards are the old keys plus every assigned key. */
  lemma {:induction false} OverwriteKeys<K, V>(m: map<K, V>, kvs: seq<(K, V)>)
    ensures Overwrite(m, kvs).Keys == m.Keys + (set i | 0 <= i < |kvs| :: kvs[i].0)
  {
    if |kvs| > 0 {
      var init := kvs[..|kvs| - 1];
      OverwriteKeys(m, init);
      assert (set i | 0 <= i < |kvs| :: kvs[i].0)
          == (set i | 0 <= i < |init| :: init[i].0) + {kvs[|kvs| - 1].0};
    }
  }

  /** A key that no pair assigns keeps its old presence and value. */
  lemma {:induction false} OverwriteUntouched<K, V>(m: map<K, V>, kvs: seq<(K, V)>, k: K)
    requires forall i :: 0 <= i < |kvs| ==> kvs[i].0 != k
    ensures k in Overwrite(m, kvs) <==> k in m
    ensures k in m ==> Overwrite(m, kvs)[k] == m[k]
  {
    if |kvs| > 0 {
      var init := kvs[..|kvs| - 1];
      assert forall i :: 0 <= i < |init| ==> init[i] == kvs[i];
      OverwriteUntouched(m, init, k);
    }
  }

  /** The last pair that assigns a key decides its value. */
  lemma {:induction false} OverwriteLastWins<K, V>(m: map<K, V>, kvs: seq<(K, V)>, i: nat)
    requires i < |kvs|
    requires forall j :: i < j < |kvs| ==> kvs[j].0 != kvs[i].0
    ensures kvs[i].0 in Overwrite(m, kvs) && Overwrite(m, kvs)[kvs[i].0] == kvs[i].1
  {
    if i < |kvs| - 1 {
      var init := kvs[..|kvs| - 1];
      assert forall j :: i < j < |init| ==> init[j] == kvs[j];
      OverwriteLastWins(m, init, i);
    }
  }

  /** Every value present afterwards is an old one or was assigned by a pair. */
  lemma {:induction false} OverwriteValueFrom<K, V>(m: map<K, V>, kvs: seq<(K, V)>, k: K)
    requires k in Overwrite(m, kvs)
    ensures (k in m && Overwrite(m, kvs)[k] == m[k])
         || exists j :: 0 <= j < |kvs| && kvs[j] == (k, Overwrite(m, kvs)[k])
  {
    if |kvs| > 0 {
      var init := kvs[..|kvs| - 1];
      var last := kvs[|kvs| - 1];
      if last.0 == k {
        assert kvs[|kvs| - 1] == (k, Overwrite(m, kvs)[k]);
      } else {
        OverwriteValueFrom(m, init, k);
        assert forall j :: 0 <= j < |init| ==> init[j] == kvs[j];
      }
    }
  }
}
