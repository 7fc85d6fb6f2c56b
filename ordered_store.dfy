/**
 * Filling a dict from a sequence of entries in order, as both loops of the
 * SSM source do: an entry is an exception (which ends the walk, returning no
 * dict), nothing to store, or a key and value that overwrite any earlier one.
 */
module OrderedStore {
  import opened Results

  function StoreAll<K(==), V, E>(entries: seq<Result<Option<(K, V)>, E>>, acc: map<K, V>): Result<map<K, V>, E>
  {
    if entries == [] then Ok(acc)
    else match entries[0]
      case Err(e) => Err(e)
      case Ok(None) => StoreAll(entries[1..], acc)
      case Ok(Some((k, v))) => StoreAll(entries[1..], acc[k := v])
  }

  /** One step of the fold from position `j`, for loops that walk the entries by index. */
  lemma StoreAllStep<K, V, E>(entries: seq<Result<Option<(K, V)>, E>>, j: nat, acc: map<K, V>)
    requires j < |entries|
    ensures entries[j].Err? ==> StoreAll(entries[j..], acc) == Err(entries[j].error)
    ensures entries[j] == Ok(None) ==> StoreAll(entries[j..], acc) == StoreAll(entries[j + 1..], acc)
    ensures entries[j].Ok? && entries[j].value.Some? ==>
              StoreAll(entries[j..], acc) == StoreAll(entries[j + 1..], acc[entries[j].value.value.0 := entries[j].value.value.1])
  {
    assert entries[j..][0] == entries[j] && entries[j..][1..] == entries[j + 1..];
  }

  ghost predicate StoresAt<K, V, E>(entries: seq<Result<Option<(K, V)>, E>>, i: int, k: K) {
    0 <= i < |entries| && entries[i].Ok? && entries[i].value.Some? && entries[i].value.value.0 == k
  }

  ghost predicate StoresKey<K, V, E>(entries: seq<Result<Option<(K, V)>, E>>, k: K) {
    exists i :: StoresAt(entries, i, k)
  }

  /** `entries[i]` is the last entry that stores under `k`. */
  ghost predicate LastStore<K, V, E>(entries: seq<Result<Option<(K, V)>, E>>, i: int, k: K) {
    StoresAt(entries, i, k) && forall j :: i < j < |entries| ==> !StoresAt(entries, j, k)
  }

  predicate AllOk<K(==), V, E>(entries: seq<Result<Option<(K, V)>, E>>) {
    forall i :: 0 <= i < |entries| ==> entries[i].Ok?
  }

  /** `entries[i]` is the first exception, and it is `e`. */
  ghost predicate FirstError<K, V, E>(entries: seq<Result<Option<(K, V)>, E>>, i: int, e: E) {
    0 <= i < |entries| && entries[i] == Err(e) && AllOk(entries[..i])
  }

  lemma StoresShift<K, V, E>(entries: seq<Result<Option<(K, V)>, E>>, k: K)
    requires entries != []
    ensures StoresKey(entries, k) <==> StoresAt(entries, 0, k) || StoresKey(entries[1..], k)
  {
    if StoresKey(entries, k) {
      var i :| StoresAt(entries, i, k);
      if i > 0 {
        assert StoresAt(entries[1..], i - 1, k);
      }
    }
    if StoresKey(entries[1..], k) {
      var i :| StoresAt(entries[1..], i, k);
      assert StoresAt(entries, i + 1, k);
    }
  }

  /**
   * The dict left behind holds a key exactly when it was there before or some
   * entry stores under it; the value is the one the LAST such entry stores;
   * earlier keys no entry touches keep their values.
   */
  lemma {:induction false} StoreAllEntries<K, V, E>(entries: seq<Result<Option<(K, V)>, E>>, acc: map<K, V>)
    requires StoreAll(entries, acc).Ok?
    ensures var m := StoreAll(entries, acc).value;
      (forall k :: k in m <==> k in acc || StoresKey(entries, k)) &&
      (forall i, k :: LastStore(entries, i, k) ==> k in m && m[k] == entries[i].value.value.1) &&
      (forall k :: k in acc && !StoresKey(entries, k) ==> k in m && m[k] == acc[k])
  {
    if entries != [] {
      var acc' := match entries[0].value
        case Some((k0, v0)) => acc[k0 := v0]
        case None => acc;
      var m := StoreAll(entries, acc).value;
      assert m == StoreAll(entries[1..], acc').value;
      StoreAllEntries(entries[1..], acc');
      forall k ensures StoresKey(entries, k) <==> StoresAt(entries, 0, k) || StoresKey(entries[1..], k) {
        StoresShift(entries, k);
      }
      forall i, k | LastStore(entries, i, k) ensures k in m && m[k] == entries[i].value.value.1 {
        if i == 0 {
          if StoresKey(entries[1..], k) {
            var j :| StoresAt(entries[1..], j, k);
            assert StoresAt(entries, j + 1, k);
            assert false;
          }
        } else {
          forall j | i - 1 < j < |entries| - 1 ensures !StoresAt(entries[1..], j, k) {
            assert !StoresAt(entries, j + 1, k);
          }
          assert LastStore(entries[1..], i - 1, k);
        }
      }
    }
  }

  /** Every stored key has a last entry storing under it. */
  lemma {:induction false} LastStoreExists<K, V, E>(entries: seq<Result<Option<(K, V)>, E>>, k: K)
    requires StoresKey(entries, k)
    ensures exists i :: LastStore(entries, i, k)
  {
    StoresShift(entries, k);
    if StoresKey(entries[1..], k) {
      LastStoreExists(entries[1..], k);
      var i :| LastStore(entries[1..], i, k);
      forall j | i + 1 < j < |entries| ensures !StoresAt(entries, j, k) {
        assert !StoresAt(entries[1..], j - 1, k);
      }
      assert LastStore(entries, i + 1, k);
    } else {
      forall j | 0 < j < |entries| ensures !StoresAt(entries, j, k) {
        if StoresAt(entries, j, k) {
          assert StoresAt(entries[1..], j - 1, k);
        }
      }
      assert LastStore(entries, 0, k);
    }
  }

  /** The walk returns a dict exactly when no entry is an exception. */
  lemma {:induction false} StoreAllSucceeds<K, V, E>(entries: seq<Result<Option<(K, V)>, E>>, acc: map<K, V>)
    ensures StoreAll(entries, acc).Ok? <==> AllOk(entries)
  {
    if entries != [] && entries[0].Ok? {
      var acc' := match entries[0].value
        case Some((k0, v0)) => acc[k0 := v0]
        case None => acc;
      StoreAllSucceeds(entries[1..], acc');
      if AllOk(entries[1..]) {
        forall i | 0 < i < |entries| ensures entries[i].Ok? {
          assert entries[i] == entries[1..][i - 1];
        }
      }
    }
  }

  /** A failed walk raises the first exception among the entries. */
  lemma {:induction false} StoreAllFails<K, V, E>(entries: seq<Result<Option<(K, V)>, E>>, acc: map<K, V>, e: E)
    requires StoreAll(entries, acc) == Err(e)
    ensures exists i :: FirstError(entries, i, e)
  {
    if entries[0].Err? {
      assert FirstError(entries, 0, e);
    } else {
      var acc' := match entries[0].value
        case Some((k0, v0)) => acc[k0 := v0]
        case None => acc;
      StoreAllFails(entries[1..], acc', e);
      var i :| FirstError(entries[1..], i, e);
      assert entries[..i + 1] == [entries[0]] + entries[1..][..i];
      assert FirstError(entries, i + 1, e);
    }
  }

  /** Walking `xs + ys` is walking `xs`, then `ys` from where `xs` left off. */
  lemma {:induction false} StoreAllAppend<K, V, E>(xs: seq<Result<Option<(K, V)>, E>>, ys: seq<Result<Option<(K, V)>, E>>, acc: map<K, V>)
    ensures StoreAll(xs, acc).Err? ==> StoreAll(xs + ys, acc) == StoreAll(xs, acc)
    ensures StoreAll(xs, acc).Ok? ==> StoreAll(xs + ys, acc) == StoreAll(ys, StoreAll(xs, acc).value)
  {
    if xs == [] {
      assert xs + ys == ys;
    } else {
      assert (xs + ys)[0] == xs[0];
      assert (xs + ys)[1..] == xs[1..] + ys;
      match xs[0]
      case Err(_) =>
      case Ok(None) => StoreAllAppend(xs[1..], ys, acc);
      case Ok(Some((k, v))) => StoreAllAppend(xs[1..], ys, acc[k := v]);
    }
  }
}
