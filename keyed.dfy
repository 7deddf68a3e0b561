// Insertion-ordered keyed collections. Both ends of the pipeline keep one:
// the client's cached step list (insert-or-replace by step id) and the
// backend's dictionaries (an insertion-ordered mapping, where assigning an
// existing key keeps that key's position). Both are a sequence plus a key
// projection, updated by `Upsert`.
module Keyed {
  import opened Types

  /** The index of the first element whose key is `k`, if any. */
  function FirstIndex<T, K(==)>(s: seq<T>, k: K, key: T -> K): (r: Option<nat>)
    ensures r.Some? ==> r.value < |s| && key(s[r.value]) == k
    ensures r.Some? ==> forall j :: 0 <= j < r.value ==> key(s[j]) != k
    ensures r.None? ==> forall j :: 0 <= j < |s| ==> key(s[j]) != k
  {
    if s == [] then None
    else if key(s[0]) == k then Some(0)
    else match FirstIndex(s[1..], k, key)
      case None => None
      case Some(i) => Some(i + 1)
  }

  /** The element found under `k` (the first one), like a dictionary read. */
  function Lookup<T, K(==)>(s: seq<T>, k: K, key: T -> K): (r: Option<T>)
    ensures r.Some? <==> exists j :: 0 <= j < |s| && key(s[j]) == k
    ensures r.Some? ==> r.value in s && key(r.value) == k
  {
    match FirstIndex(s, k, key)
    case None => None
    case Some(i) => Some(s[i])
  }

  /** Insert-or-replace: overwrite the first element with the same key in
      place, or append when there is none. */
  function Upsert<T, K(==)>(s: seq<T>, x: T, key: T -> K): seq<T>
  {
    if s == [] then [x]
    else if key(s[0]) == key(x) then [x] + s[1..]
    else [s[0]] + Upsert(s[1..], x, key)
  }

  /** The same write, told by where the key is first found. */
  lemma {:induction false} UpsertByIndex<T, K>(s: seq<T>, x: T, key: T -> K)
    ensures Upsert(s, x, key) == match FirstIndex(s, key(x), key)
                                 case Some(i) => s[i := x]
                                 case None => s + [x]
  {
    if s != [] && key(s[0]) != key(x) {
      UpsertByIndex(s[1..], x, key);
      match FirstIndex(s[1..], key(x), key)
      case Some(i) =>
        assert [s[0]] + s[1..][i := x] == s[i + 1 := x];
      case None =>
        assert [s[0]] + (s[1..] + [x]) == s + [x];
    }
  }

  /** The keys of `s`, in order. */
  function Keys<T, K>(s: seq<T>, key: T -> K): (r: seq<K>)
    ensures |r| == |s|
    ensures forall j :: 0 <= j < |s| ==> r[j] == key(s[j])
  {
    seq(|s|, j requires 0 <= j < |s| => key(s[j]))
  }

  ghost predicate UniqueKeys<T, K>(s: seq<T>, key: T -> K)
  {
    forall i, j :: 0 <= i < j < |s| ==> key(s[i]) != key(s[j])
  }

  function KeySet<T, K>(s: seq<T>, key: T -> K): set<K>
  {
    set j | 0 <= j < |s| :: key(s[j])
  }

  // ---- Upsert: replace in place -------------------------------------------

  lemma UpsertReplaces<T, K>(s: seq<T>, x: T, key: T -> K, i: nat)
    requires FirstIndex(s, key(x), key) == Some(i)
    ensures |Upsert(s, x, key)| == |s|
    ensures Upsert(s, x, key)[i] == x
    ensures forall j :: 0 <= j < |s| && j != i ==> Upsert(s, x, key)[j] == s[j]
  {
    UpsertByIndex(s, x, key);
  }

  lemma UpsertAppends<T, K>(s: seq<T>, x: T, key: T -> K)
    requires forall j :: 0 <= j < |s| ==> key(s[j]) != key(x)
    ensures Upsert(s, x, key) == s + [x]
    ensures Upsert(s, x, key)[..|s|] == s
  {
    UpsertByIndex(s, x, key);
  }

  /** The key sequence is unchanged by a replace and grows by the new key on
      an append: no existing key ever moves. */
  lemma UpsertKeys<T, K>(s: seq<T>, x: T, key: T -> K)
    ensures Keys(Upsert(s, x, key), key) ==
            if FirstIndex(s, key(x), key).Some? then Keys(s, key) else Keys(s, key) + [key(x)]
  {
    UpsertByIndex(s, x, key);
    var r := Upsert(s, x, key);
    match FirstIndex(s, key(x), key)
    case Some(i) =>
      assert forall j :: 0 <= j < |r| ==> key(r[j]) == key(s[j]);
    case None =>
  }

  lemma UpsertKeySet<T, K>(s: seq<T>, x: T, key: T -> K)
    ensures KeySet(Upsert(s, x, key), key) == KeySet(s, key) + {key(x)}
  {
    UpsertByIndex(s, x, key);
    var r := Upsert(s, x, key);
    match FirstIndex(s, key(x), key)
    case Some(i) =>
      assert forall j :: 0 <= j < |r| ==> key(r[j]) == key(s[j]);
      assert key(s[i]) in KeySet(s, key);
    case None =>
      assert r == s + [x];
      assert key(r[|s|]) in KeySet(r, key);
      forall k | k in KeySet(r, key) ensures k in KeySet(s, key) + {key(x)} {
        var j :| 0 <= j < |r| && key(r[j]) == k;
        if j < |s| { assert r[j] == s[j]; }
      }
      forall k | k in KeySet(s, key) ensures k in KeySet(r, key) {
        var j :| 0 <= j < |s| && key(s[j]) == k;
        assert r[j] == s[j];
      }
  }

  /** Upserting the same element twice is the same as upserting it once. */
  lemma {:induction false} UpsertIdempotent<T, K>(s: seq<T>, x: T, key: T -> K)
    ensures Upsert(Upsert(s, x, key), x, key) == Upsert(s, x, key)
  {
    if s != [] && key(s[0]) != key(x) {
      UpsertIdempotent(s[1..], x, key);
      assert Upsert(s, x, key)[1..] == Upsert(s[1..], x, key);
    }
  }

  lemma {:induction false} FirstIndexAfterReplace<T, K>(s: seq<T>, x: T, key: T -> K, i: nat)
    requires FirstIndex(s, key(x), key) == Some(i)
    ensures FirstIndex(s[i := x], key(x), key) == Some(i)
  {
    if i > 0 {
      assert s[i := x][1..] == s[1..][i - 1 := x];
      FirstIndexAfterReplace(s[1..], x, key, i - 1);
    }
  }

  lemma {:induction false} FirstIndexOfLast<T, K>(s: seq<T>, x: T, key: T -> K)
    requires forall j :: 0 <= j < |s| ==> key(s[j]) != key(x)
    ensures FirstIndex(s + [x], key(x), key) == Some(|s|)
  {
    if s != [] {
      assert (s + [x])[1..] == s[1..] + [x];
      FirstIndexOfLast(s[1..], x, key);
    }
  }

  // ---- Upsert as a dictionary write ---------------------------------------

  /** Read-after-write: the upserted key now yields the new element; every
      other key yields what it yielded before (last write wins). */
  lemma {:induction false} LookupAfterUpsert<T, K>(s: seq<T>, x: T, key: T -> K, k: K)
    ensures Lookup(Upsert(s, x, key), k, key) == if k == key(x) then Some(x) else Lookup(s, k, key)
  {
    UpsertByIndex(s, x, key);
    var r := Upsert(s, x, key);
    match FirstIndex(s, key(x), key)
    case Some(i) =>
      if k == key(x) {
        FirstIndexAfterReplace(s, x, key, i);
      } else {
        FirstIndexUnaffected(s, i, x, key, k);
      }
    case None =>
      if k == key(x) {
        FirstIndexOfLast(s, x, key);
      } else {
        FirstIndexAppendOther(s, x, key, k);
      }
  }

  lemma {:induction false} FirstIndexUnaffected<T, K>(s: seq<T>, i: nat, x: T, key: T -> K, k: K)
    requires i < |s| && key(s[i]) == key(x) && k != key(x)
    ensures FirstIndex(s[i := x], k, key) == FirstIndex(s, k, key)
  {
    if i > 0 {
      assert s[i := x][1..] == s[1..][i - 1 := x];
      FirstIndexUnaffected(s[1..], i - 1, x, key, k);
    }
  }

  lemma {:induction false} FirstIndexAppendOther<T, K>(s: seq<T>, x: T, key: T -> K, k: K)
    requires k != key(x)
    ensures FirstIndex(s + [x], k, key) == FirstIndex(s, k, key)
  {
    if s != [] {
      assert (s + [x])[1..] == s[1..] + [x];
      FirstIndexAppendOther(s[1..], x, key, k);
    }
  }

  /** Upsert keeps keys unique, so the backend's tables stay dictionaries. */
  lemma UpsertKeepsUniqueKeys<T, K>(s: seq<T>, x: T, key: T -> K)
    requires UniqueKeys(s, key)
    ensures UniqueKeys(Upsert(s, x, key), key)
  {
    UpsertByIndex(s, x, key);
    var r := Upsert(s, x, key);
    match FirstIndex(s, key(x), key)
    case Some(i) =>
      assert forall j :: 0 <= j < |r| ==> key(r[j]) == key(s[j]);
    case None =>
      assert r == s + [x];
  }
}
