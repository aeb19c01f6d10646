/** The loop the INFO decoders share: for each key in turn, a pass either
    throws (leaving the loop), stores nothing, or puts a value under the key. */
module Folds {
  import opened Wrappers

  /** The map the loop builds over `keys`, pass k yielding `entries[k]`;
      the first failing pass ends it. */
  function Collect<K, V>(keys: seq<K>, entries: seq<Result<Option<V>>>): Result<map<K, V>>
    requires |keys| == |entries|
  {
    if |keys| == 0 then Ok(map[])
    else
      var n := |keys| - 1;
      match Collect(keys[..n], entries[..n])
      case Err(e) => Err(e)
      case Ok(m) =>
        match entries[n]
        case Err(e) => Err(e)
        case Ok(None) => Ok(m)
        case Ok(Some(v)) => Ok(m[keys[n] := v])
  }

  /** One more successful pass. */
  lemma CollectStep<K, V>(keys: seq<K>, entries: seq<Result<Option<V>>>, i: nat, m: map<K, V>)
    requires |keys| == |entries| && i < |keys| && Collect(keys[..i], entries[..i]) == Ok(m) && entries[i].Ok?
    ensures Collect(keys[..i + 1], entries[..i + 1]) ==
      Ok(if entries[i].value.Some? then m[keys[i] := entries[i].value.value] else m)
  {
    assert keys[..i + 1][..i] == keys[..i] && entries[..i + 1][..i] == entries[..i];
  }

  predicate DistinctKeys<K(==)>(keys: seq<K>) {
    forall a, b :: 0 <= a < b < |keys| ==> keys[a] != keys[b]
  }

  /** The loop succeeds exactly when every pass does. */
  lemma {:induction false} CollectOk<K, V>(keys: seq<K>, entries: seq<Result<Option<V>>>)
    requires |keys| == |entries|
    ensures Collect(keys, entries).Ok? <==> forall j :: 0 <= j < |entries| ==> entries[j].Ok?
  {
    if |keys| > 0 {
      var n := |keys| - 1;
      CollectOk(keys[..n], entries[..n]);
      assert forall j :: 0 <= j < n ==> entries[..n][j] == entries[j];
    }
  }

  /** A run of successful passes followed by a failing one fails with its
      exception. */
  lemma {:induction false} CollectFirstError<K, V>(keys: seq<K>, entries: seq<Result<Option<V>>>, k: nat)
    requires |keys| == |entries| && k < |entries| && entries[k].Err?
    requires forall j :: 0 <= j < k ==> entries[j].Ok?
    ensures Collect(keys, entries) == Err(entries[k].error)
  {
    var n := |keys| - 1;
    if k < n {
      assert entries[..n][k] == entries[k];
      CollectFirstError(keys[..n], entries[..n], k);
    } else {
      CollectOk(keys[..n], entries[..n]);
      assert forall j :: 0 <= j < n ==> entries[..n][j] == entries[j];
    }
  }

  /** Only the loop's keys are stored. */
  lemma {:induction false} CollectKeys<K, V>(keys: seq<K>, entries: seq<Result<Option<V>>>)
    requires |keys| == |entries| && Collect(keys, entries).Ok?
    ensures forall p :: p in Collect(keys, entries).value ==> p in keys
  {
    if |keys| > 0 {
      var n := |keys| - 1;
      CollectKeys(keys[..n], entries[..n]);
      assert forall p :: p in keys[..n] ==> p in keys;
    }
  }

  /** With distinct keys, key j holds the value of pass j, and is absent when
      that pass stored nothing. */
  lemma {:induction false} CollectAt<K, V>(keys: seq<K>, entries: seq<Result<Option<V>>>, j: nat)
    requires |keys| == |entries| && j < |keys| && DistinctKeys(keys) && Collect(keys, entries).Ok?
    ensures entries[j].Ok?
    ensures entries[j].value.None? ==> keys[j] !in Collect(keys, entries).value
    ensures entries[j].value.Some? ==>
      keys[j] in Collect(keys, entries).value && Collect(keys, entries).value[keys[j]] == entries[j].value.value
  {
    var n := |keys| - 1;
    var prefix, before := keys[..n], entries[..n];
    assert DistinctKeys(prefix);
    if j < n {
      assert prefix[j] == keys[j] && before[j] == entries[j];
      CollectAt(prefix, before, j);
      assert keys[j] != keys[n];
    } else {
      CollectKeys(prefix, before);
      assert keys[n] !in prefix;
    }
  }

  /** The map a loop builds that puts, pass by pass, the key and value of
      `entries[k]`, a later pass overriding an earlier one; the first failing
      pass ends it. */
  function Assign<K, V>(entries: seq<Result<(K, V)>>): Result<map<K, V>>
  {
    if entries == [] then Ok(map[])
    else
      var n := |entries| - 1;
      match Assign(entries[..n])
      case Err(e) => Err(e)
      case Ok(m) =>
        match entries[n]
        case Err(e) => Err(e)
        case Ok(kv) => Ok(m[kv.0 := kv.1])
  }

  /** One more successful pass. */
  lemma AssignStep<K, V>(entries: seq<Result<(K, V)>>, i: nat, m: map<K, V>)
    requires i < |entries| && Assign(entries[..i]) == Ok(m) && entries[i].Ok?
    ensures Assign(entries[..i + 1]) == Ok(m[entries[i].value.0 := entries[i].value.1])
  {
    assert entries[..i + 1][..i] == entries[..i];
  }

  /** A failing pass after successful ones ends the loop with its exception. */
  lemma {:induction false} AssignBreaks<K, V>(entries: seq<Result<(K, V)>>, i: nat)
    requires i < |entries| && Assign(entries[..i]).Ok? && entries[i].Err?
    ensures Assign(entries) == Err(entries[i].error)
  {
    var n := |entries| - 1;
    if i < n {
      assert entries[..n][..i] == entries[..i] && entries[..n][i] == entries[i];
      AssignBreaks(entries[..n], i);
    } else {
      assert entries[..n] == entries[..i];
    }
  }

  /** The loop succeeds exactly when every pass does. */
  lemma {:induction false} AssignOk<K, V>(entries: seq<Result<(K, V)>>)
    ensures Assign(entries).Ok? <==> forall j :: 0 <= j < |entries| ==> entries[j].Ok?
  {
    if entries != [] {
      var n := |entries| - 1;
      AssignOk(entries[..n]);
      assert forall j :: 0 <= j < n ==> entries[..n][j] == entries[j];
    }
  }

  /** Exactly the keys of the passes are stored. */
  lemma {:induction false} AssignKeys<K, V>(entries: seq<Result<(K, V)>>, p: K)
    requires Assign(entries).Ok?
    ensures p in Assign(entries).value <==>
      exists j :: 0 <= j < |entries| && entries[j].Ok? && entries[j].value.0 == p
  {
    if entries != [] {
      var n := |entries| - 1;
      AssignKeys(entries[..n], p);
      assert forall j :: 0 <= j < n ==> entries[..n][j] == entries[j];
    }
  }

  /** A key holds the value of the last pass that puts it. */
  lemma {:induction false} AssignLast<K, V>(entries: seq<Result<(K, V)>>, j: nat)
    requires Assign(entries).Ok? && j < |entries| && entries[j].Ok?
    requires forall k :: j < k < |entries| && entries[k].Ok? ==> entries[k].value.0 != entries[j].value.0
    ensures entries[j].value.0 in Assign(entries).value
    ensures Assign(entries).value[entries[j].value.0] == entries[j].value.1
  {
    var n := |entries| - 1;
    if j < n {
      assert entries[..n][j] == entries[j];
      assert forall k :: j < k < n ==> entries[..n][k] == entries[k];
      AssignLast(entries[..n], j);
    }
  }

  /** The passes that put each of `ks` with its value in `m`. */
  function Pairs<K, V>(ks: seq<K>, m: map<K, V>): (es: seq<Result<(K, V)>>)
    requires forall i :: 0 <= i < |ks| ==> ks[i] in m
    ensures |es| == |ks| && forall i :: 0 <= i < |ks| ==> es[i] == Ok((ks[i], m[ks[i]]))
  {
    seq(|ks|, i requires 0 <= i < |ks| => Ok((ks[i], m[ks[i]])))
  }

  /** Putting the keys `ks` with their values in `m` rebuilds `m` restricted to `ks`. */
  lemma {:induction false} AssignPairs<K, V>(ks: seq<K>, m: map<K, V>)
    requires forall i :: 0 <= i < |ks| ==> ks[i] in m
    ensures Assign(Pairs(ks, m)) == Ok(map p | p in ks :: m[p])
  {
    if ks != [] {
      var n := |ks| - 1;
      assert Pairs(ks, m)[..n] == Pairs(ks[..n], m);
      AssignPairs(ks[..n], m);
      var before := map p | p in ks[..n] :: m[p];
      assert before[ks[n] := m[ks[n]]] == map p | p in ks :: m[p] by {
        assert forall p :: p in ks <==> p in ks[..n] || p == ks[n];
      }
    }
  }

  /** Putting every key of `m` with its value rebuilds `m`. */
  lemma AssignAllPairs<K, V>(ks: seq<K>, m: map<K, V>)
    requires forall p :: p in ks <==> p in m
    ensures Assign(Pairs(ks, m)) == Ok(m)
  {
    AssignPairs(ks, m);
    assert (map p | p in ks :: m[p]) == m;
  }

  /** The loop that combines, pass by pass, a running value with the value of
      each pass that yields one (`acc := f(acc, v)`); a pass yielding none is
      skipped and the first failing pass ends it. */
  function Reduce<V>(entries: seq<Result<Option<V>>>, init: V, f: (V, V) -> V): Result<V>
  {
    if entries == [] then Ok(init)
    else
      var n := |entries| - 1;
      match Reduce(entries[..n], init, f)
      case Err(e) => Err(e)
      case Ok(acc) =>
        match entries[n]
        case Err(e) => Err(e)
        case Ok(None) => Ok(acc)
        case Ok(Some(v)) => Ok(f(acc, v))
  }

  /** One more successful pass. */
  lemma ReduceStep<V>(entries: seq<Result<Option<V>>>, i: nat, init: V, f: (V, V) -> V, acc: V)
    requires i < |entries| && Reduce(entries[..i], init, f) == Ok(acc) && entries[i].Ok?
    ensures Reduce(entries[..i + 1], init, f) ==
      Ok(if entries[i].value.Some? then f(acc, entries[i].value.value) else acc)
  {
    assert entries[..i + 1][..i] == entries[..i];
  }

  /** A failing pass after successful ones ends the loop with its exception. */
  lemma {:induction false} ReduceBreaks<V>(entries: seq<Result<Option<V>>>, i: nat, init: V, f: (V, V) -> V)
    requires i < |entries| && Reduce(entries[..i], init, f).Ok? && entries[i].Err?
    ensures Reduce(entries, init, f) == Err(entries[i].error)
  {
    var n := |entries| - 1;
    if i < n {
      assert entries[..n][..i] == entries[..i] && entries[..n][i] == entries[i];
      ReduceBreaks(entries[..n], i, init, f);
    } else {
      assert entries[..n] == entries[..i];
    }
  }

  /** The loop succeeds exactly when every pass does. */
  lemma {:induction false} ReduceOk<V>(entries: seq<Result<Option<V>>>, init: V, f: (V, V) -> V)
    ensures Reduce(entries, init, f).Ok? <==> forall j :: 0 <= j < |entries| ==> entries[j].Ok?
  {
    if entries != [] {
      var n := |entries| - 1;
      ReduceOk(entries[..n], init, f);
      assert forall j :: 0 <= j < n ==> entries[..n][j] == entries[j];
    }
  }
}
