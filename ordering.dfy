// String order and the stable key sort the backend's listings use. Python
// compares `str` values lexicographically by code point; its `sorted` is a
// stable sort, also with `reverse=True` (equal keys keep their input order).
// The store compares ISO-8601 timestamps as strings, so this order is the
// one the listings have, whether or not it is chronological.
module Ordering {
  import Seqs

  /** `a < b` on Python strings. */
  predicate Lt(a: string, b: string)
    decreases |a|
  {
    if a == [] then b != []
    else if b == [] then false
    else if a[0] < b[0] then true
    else if a[0] == b[0] then Lt(a[1..], b[1..])
    else false
  }

  predicate Le(a: string, b: string)
  {
    !Lt(b, a)
  }

  lemma {:induction false} LtIrreflexive(a: string)
    ensures !Lt(a, a)
  {
    if a != [] {
      LtIrreflexive(a[1..]);
    }
  }

  /** Exactly one of `a < b`, `a == b`, `b < a`. */
  lemma {:induction false} LtTrichotomy(a: string, b: string)
    ensures Lt(a, b) || a == b || Lt(b, a)
    ensures !(Lt(a, b) && Lt(b, a))
    ensures a == b ==> !Lt(a, b)
  {
    if a != [] && b != [] && a[0] == b[0] {
      LtTrichotomy(a[1..], b[1..]);
      if a[1..] == b[1..] {
        assert a == [a[0]] + a[1..] && b == [b[0]] + b[1..];
      }
    }
    if a == b {
      LtIrreflexive(a);
    }
  }

  lemma {:induction false} LtTransitive(a: string, b: string, c: string)
    requires Lt(a, b) && Lt(b, c)
    ensures Lt(a, c)
  {
    if a != [] && a[0] == b[0] && b[0] == c[0] {
      LtTransitive(a[1..], b[1..], c[1..]);
    }
  }

  lemma LeTotal(a: string, b: string)
    ensures Le(a, b) || Le(b, a)
  {
    LtTrichotomy(a, b);
  }

  lemma LeTransitive(a: string, b: string, c: string)
    requires Le(a, b) && Le(b, c)
    ensures Le(a, c)
  {
    LtTrichotomy(a, b);
    LtTrichotomy(b, c);
    LtTrichotomy(a, c);
    if Lt(c, a) {
      if Lt(b, a) {
      } else if a == b {
      } else {
        LtTransitive(c, a, b);
      }
    }
  }

  // ---- Stable sort by a string key ------------------------------------------

  /** `x` goes strictly before `y`: a smaller key ascending, a larger one
      descending. */
  predicate Precedes<T>(x: T, y: T, key: T -> string, descending: bool)
  {
    if descending then Lt(key(y), key(x)) else Lt(key(x), key(y))
  }

  lemma PrecedesAsymmetric<T>(x: T, y: T, key: T -> string, descending: bool)
    requires Precedes(x, y, key, descending)
    ensures !Precedes(y, x, key, descending)
    ensures key(x) != key(y)
  {
    LtTrichotomy(key(x), key(y));
  }

  /** "Not strictly after" chains. */
  lemma NotPrecedesTransitive<T>(x: T, y: T, z: T, key: T -> string, descending: bool)
    requires !Precedes(x, y, key, descending) && !Precedes(y, z, key, descending)
    ensures !Precedes(x, z, key, descending)
  {
    if descending {
      LeTransitive(key(x), key(y), key(z));
    } else {
      LeTransitive(key(z), key(y), key(x));
    }
  }

  ghost predicate SortedBy<T>(s: seq<T>, key: T -> string, descending: bool)
  {
    forall i, j :: 0 <= i < j < |s| ==> !Precedes(s[j], s[i], key, descending)
  }

  /** Places `x` before the first element it does not strictly follow. */
  function Insert<T>(x: T, s: seq<T>, key: T -> string, descending: bool): (r: seq<T>)
    ensures multiset(r) == multiset(s) + multiset{x}
  {
    if s == [] then [x]
    else if Precedes(s[0], x, key, descending) then
      assert s == [s[0]] + s[1..];
      [s[0]] + Insert(x, s[1..], key, descending)
    else [x] + s
  }

  /** `sorted(s, key=key, reverse=descending)`. */
  function SortBy<T>(s: seq<T>, key: T -> string, descending: bool): (r: seq<T>)
    ensures multiset(r) == multiset(s)
  {
    if s == [] then []
    else
      assert s == [s[0]] + s[1..];
      Insert(s[0], SortBy(s[1..], key, descending), key, descending)
  }

  /** The elements whose key is `k`. */
  function HasKey<T>(key: T -> string, k: string): T -> bool
  {
    (y: T) => key(y) == k
  }

  lemma {:induction false} InsertSorted<T>(x: T, s: seq<T>, key: T -> string, descending: bool)
    requires SortedBy(s, key, descending)
    ensures SortedBy(Insert(x, s, key, descending), key, descending)
  {
    var r := Insert(x, s, key, descending);
    if s == [] {
    } else if Precedes(s[0], x, key, descending) {
      var t := s[1..];
      InsertSorted(x, t, key, descending);
      var rt := Insert(x, t, key, descending);
      assert r == [s[0]] + rt;
      forall j | 0 <= j < |rt| ensures !Precedes(rt[j], s[0], key, descending) {
        assert rt[j] in multiset(rt);
        if rt[j] == x {
          PrecedesAsymmetric(s[0], x, key, descending);
        } else {
          assert rt[j] in multiset(t);
          var m :| 0 <= m < |t| && t[m] == rt[j];
          assert s[m + 1] == rt[j];
        }
      }
    } else {
      assert r == [x] + s;
      forall j | 0 <= j < |s| ensures !Precedes(s[j], x, key, descending) {
        if j > 0 {
          NotPrecedesTransitive(s[j], s[0], x, key, descending);
        }
      }
    }
  }

  lemma {:induction false} SortBySorted<T>(s: seq<T>, key: T -> string, descending: bool)
    ensures SortedBy(SortBy(s, key, descending), key, descending)
  {
    if s != [] {
      SortBySorted(s[1..], key, descending);
      InsertSorted(s[0], SortBy(s[1..], key, descending), key, descending);
    }
  }

  lemma {:induction false} InsertStable<T>(x: T, s: seq<T>, key: T -> string, descending: bool, k: string)
    ensures Seqs.Filter(Insert(x, s, key, descending), HasKey(key, k)) ==
            (if key(x) == k then [x] else []) + Seqs.Filter(s, HasKey(key, k))
  {
    if s == [] {
      Seqs.FilterCons(x, [], HasKey(key, k));
    } else if Precedes(s[0], x, key, descending) {
      InsertStable(x, s[1..], key, descending, k);
      InsertPastHead(x, s, key, descending, k);
    } else {
      Seqs.FilterCons(x, s, HasKey(key, k));
    }
  }

  /** Moving `x` past a head it strictly follows, which never has its key. */
  lemma {:induction false} InsertPastHead<T>(x: T, s: seq<T>, key: T -> string, descending: bool, k: string)
    requires s != [] && Precedes(s[0], x, key, descending)
    requires Seqs.Filter(Insert(x, s[1..], key, descending), HasKey(key, k)) ==
             (if key(x) == k then [x] else []) + Seqs.Filter(s[1..], HasKey(key, k))
    ensures Seqs.Filter(Insert(x, s, key, descending), HasKey(key, k)) ==
            (if key(x) == k then [x] else []) + Seqs.Filter(s, HasKey(key, k))
  {
    var p := HasKey(key, k);
    var rest := Insert(x, s[1..], key, descending);
    var head: seq<T> := if p(s[0]) then [s[0]] else [];
    var mine: seq<T> := if key(x) == k then [x] else [];
    var f := Seqs.Filter(s[1..], p);
    assert Seqs.Filter(Insert(x, s, key, descending), p) == head + (mine + f) by {
      assert Insert(x, s, key, descending) == [s[0]] + rest;
      Seqs.FilterCons(s[0], rest, p);
    }
    assert Seqs.Filter(s, p) == head + f;
    assert head == [] || mine == [] by {
      PrecedesAsymmetric(s[0], x, key, descending);
    }
    SwapEmpty(head, mine, f);
  }

  lemma SwapEmpty<T>(a: seq<T>, b: seq<T>, c: seq<T>)
    requires a == [] || b == []
    ensures a + (b + c) == b + (a + c)
  {
    if a == [] {
      assert a + (b + c) == b + c && a + c == c;
    } else {
      assert b + (a + c) == a + c && b + c == c;
    }
  }

  /** Stability: among equal keys, the input order survives. */
  lemma {:induction false} SortByStable<T>(s: seq<T>, key: T -> string, descending: bool, k: string)
    ensures Seqs.Filter(SortBy(s, key, descending), HasKey(key, k)) == Seqs.Filter(s, HasKey(key, k))
  {
    if s != [] {
      SortByStable(s[1..], key, descending, k);
      InsertStable(s[0], SortBy(s[1..], key, descending), key, descending, k);
    }
  }

  /** A sort is determined by its input: sorting an already sorted list
      changes nothing. */
  lemma {:induction false} SortBySortedIdentity<T>(s: seq<T>, key: T -> string, descending: bool)
    requires SortedBy(s, key, descending)
    ensures SortBy(s, key, descending) == s
  {
    if s != [] {
      SortedTail(s, key, descending);
      SortBySortedIdentity(s[1..], key, descending);
      if |s| > 1 {
        InsertAtFront(s[0], s[1..], key, descending);
      }
    }
  }

  lemma SortedTail<T>(s: seq<T>, key: T -> string, descending: bool)
    requires s != [] && SortedBy(s, key, descending)
    ensures SortedBy(s[1..], key, descending)
    ensures |s| > 1 ==> !Precedes(s[1], s[0], key, descending)
  {
    forall i, j | 0 <= i < j < |s[1..]| ensures !Precedes(s[1..][j], s[1..][i], key, descending) {
      assert s[1..][j] == s[j + 1] && s[1..][i] == s[i + 1];
    }
  }

  lemma InsertAtFront<T>(x: T, s: seq<T>, key: T -> string, descending: bool)
    requires s != [] && !Precedes(s[0], x, key, descending)
    ensures Insert(x, s, key, descending) == [x] + s
  {
  }

  // ---- Python slicing -------------------------------------------------------

  /** The length of `s[:limit]` for a list of length `n`: a negative limit
      counts from the end. */
  function PrefixLength(n: nat, limit: int): (m: nat)
    ensures m <= n
    ensures limit >= 0 ==> m == if limit <= n then limit else n
    ensures limit < 0 ==> m == if n + limit >= 0 then n + limit else 0
  {
    if limit >= 0 then (if limit <= n then limit else n)
    else if n + limit >= 0 then n + limit else 0
  }

  /** `s[:limit]`. */
  function TakePrefix<T>(s: seq<T>, limit: int): (r: seq<T>)
    ensures |r| == PrefixLength(|s|, limit) && r == s[..|r|]
  {
    s[..PrefixLength(|s|, limit)]
  }
}
