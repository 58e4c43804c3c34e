/** Building the table's key list: configured positions are kept as names, filtered positions are used to look up. */
module KeyTable {
  datatype KeyConfig = KeyConfig(name: string, group: string, enabled: bool)
  datatype KeyEntry = KeyEntry(index: nat, group: string)

  /** The enabled keys in order, each remembering where it was configured. */
  function Built(keys: seq<KeyConfig>): (entries: seq<KeyEntry>)
    ensures |entries| <= |keys|
  {
    if keys == [] then []
    else
      var n := |keys| - 1;
      Built(keys[..n]) + (if keys[n].enabled then [KeyEntry(n, keys[n].group)] else [])
  }

  /** Looking an entry up by its own index gives the entry back. */
  predicate Aligned(entries: seq<KeyEntry>) {
    forall k :: 0 <= k < |entries| ==> entries[k].index < |entries| && entries[entries[k].index] == entries[k]
  }

  predicate DisabledLast(keys: seq<KeyConfig>) {
    forall i, j :: 0 <= i < j < |keys| && keys[j].enabled ==> keys[i].enabled
  }

  lemma {:induction false} BuiltPositions(keys: seq<KeyConfig>)
    ensures forall k :: 0 <= k < |Built(keys)| ==> k <= Built(keys)[k].index < |keys|
    ensures forall k, m :: 0 <= k < m < |Built(keys)| ==> Built(keys)[k].index < Built(keys)[m].index
    ensures forall i :: 0 <= i < |keys| && keys[i].enabled ==> KeyEntry(i, keys[i].group) in Built(keys)
  {
    if keys != [] {
      var n := |keys| - 1;
      BuiltPositions(keys[..n]);
      assert forall i :: 0 <= i < n ==> keys[..n][i] == keys[i];
    }
  }

  lemma {:induction false} AllEnabledInPlace(keys: seq<KeyConfig>)
    requires DisabledLast(keys)
    ensures forall k :: 0 <= k < |Built(keys)| ==> Built(keys)[k].index == k
    ensures keys != [] && keys[|keys| - 1].enabled ==> |Built(keys)| == |keys|
  {
    if keys != [] {
      var n := |keys| - 1;
      assert DisabledLast(keys[..n]);
      AllEnabledInPlace(keys[..n]);
      if keys[n].enabled && n > 0 { assert keys[..n][n - 1].enabled; }
    }
  }

  /** Every key state is looked up under its own key exactly when no disabled key stands before an enabled one. */
  lemma AlignedExactly(keys: seq<KeyConfig>)
    ensures Aligned(Built(keys)) <==> DisabledLast(keys)
  {
    var entries := Built(keys);
    BuiltPositions(keys);
    if DisabledLast(keys) {
      AllEnabledInPlace(keys);
    } else {
      var i, j :| 0 <= i < j < |keys| && keys[j].enabled && !keys[i].enabled;
      Misplaced(keys, i, j);
    }
  }

  lemma {:induction false} SkipsDisabled(keys: seq<KeyConfig>, i: nat)
    requires i < |keys| && !keys[i].enabled
    ensures forall k :: 0 <= k < |Built(keys)| ==> Built(keys)[k].index != i
  {
    var n := |keys| - 1;
    if i < n { SkipsDisabled(keys[..n], i); } else { BuiltPositions(keys[..n]); }
  }

  /** In an aligned list every entry stands at its own index. */
  lemma InPlace(entries: seq<KeyEntry>)
    requires forall a, b :: 0 <= a < b < |entries| ==> entries[a].index < entries[b].index
    ensures Aligned(entries) ==> forall m :: 0 <= m < |entries| ==> entries[m].index == m
  {
  }

  lemma Misplaced(keys: seq<KeyConfig>, i: nat, j: nat)
    requires i < j < |keys| && keys[j].enabled && !keys[i].enabled
    ensures !Aligned(Built(keys))
  {
    var entries := Built(keys);
    BuiltPositions(keys);
    SkipsDisabled(keys, i);
    InPlace(entries);
    var k :| 0 <= k < |entries| && entries[k] == KeyEntry(j, keys[j].group);
  }
}
