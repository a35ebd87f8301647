/**
 * Python's list ordering built-ins: the stable sort behind `list.sort(key=…)`
 * and `sorted(…, key=…)`, and the prefix slice `s[:k]`.
 */
module PySort {

  /** Every element's key is at most every later element's key. */
  predicate Sorted<T>(s: seq<T>, key: T -> real) {
    forall i, j :: 0 <= i < j < |s| ==> key(s[i]) <= key(s[j])
  }

  /** `s[i]` has the least key of `s`, and no earlier element has that key. */
  predicate IsFirstMin<T>(s: seq<T>, key: T -> real, i: int) {
    && 0 <= i < |s|
    && (forall j :: 0 <= j < |s| ==> key(s[i]) <= key(s[j]))
    && (forall j :: 0 <= j < i ==> key(s[i]) < key(s[j]))
  }

  /** The elements of `s` whose key is `c`, in their order in `s`. */
  function WithKey<T>(s: seq<T>, key: T -> real, c: real): seq<T> {
    if s == [] then [] else (if key(s[0]) == c then [s[0]] else []) + WithKey(s[1..], key, c)
  }

  /** Places `x` in front of the first element whose key is not below its own. */
  function Insert<T>(x: T, s: seq<T>, key: T -> real): (r: seq<T>)
    ensures |r| == |s| + 1
    ensures multiset(r) == multiset(s) + multiset{x}
  {
    if s == [] || key(x) <= key(s[0]) then
      [x] + s
    else
      assert s == [s[0]] + s[1..];
      [s[0]] + Insert(x, s[1..], key)
  }

  lemma {:induction false} InsertBound<T>(x: T, s: seq<T>, key: T -> real, b: real)
    requires b <= key(x)
    requires forall k :: 0 <= k < |s| ==> b <= key(s[k])
    ensures forall k :: 0 <= k < |s| + 1 ==> b <= key(Insert(x, s, key)[k])
  {
    if s != [] && key(s[0]) < key(x) {
      InsertBound(x, s[1..], key, b);
    }
  }

  lemma {:induction false} InsertSorted<T>(x: T, s: seq<T>, key: T -> real)
    requires Sorted(s, key)
    ensures Sorted(Insert(x, s, key), key)
  {
    if s != [] && key(s[0]) < key(x) {
      InsertSorted(x, s[1..], key);
      InsertBound(x, s[1..], key, key(s[0]));
    }
  }

  /** Python's stable ascending sort by `key`: an insertion sort that keeps equal keys in input order. */
  function SortBy<T>(s: seq<T>, key: T -> real): (r: seq<T>)
    ensures |r| == |s|
    ensures multiset(r) == multiset(s)
    ensures Sorted(r, key)
  {
    if s == [] then []
    else
      assert s == [s[0]] + s[1..];
      InsertSorted(s[0], SortBy(s[1..], key), key);
      Insert(s[0], SortBy(s[1..], key), key)
  }

  lemma {:induction false} InsertWithKey<T>(x: T, s: seq<T>, key: T -> real, c: real)
    ensures WithKey(Insert(x, s, key), key, c) == WithKey([x] + s, key, c)
  {
    if s == [] || key(x) <= key(s[0]) {
    } else {
      var hx := if key(x) == c then [x] else [];
      var h0 := if key(s[0]) == c then [s[0]] else [];
      calc {
        WithKey(Insert(x, s, key), key, c);
        WithKey([s[0]] + Insert(x, s[1..], key), key, c);
        { WithKeyCons(s[0], Insert(x, s[1..], key), key, c); }
        h0 + WithKey(Insert(x, s[1..], key), key, c);
        { InsertWithKey(x, s[1..], key, c); WithKeyCons(x, s[1..], key, c); }
        h0 + (hx + WithKey(s[1..], key, c));
        { SwapEmpty(h0, hx, WithKey(s[1..], key, c)); }
        hx + (h0 + WithKey(s[1..], key, c));
        hx + WithKey(s, key, c);
        { WithKeyCons(x, s, key, c); }
        WithKey([x] + s, key, c);
      }
    }
  }

  /** One step of `WithKey` on a sequence written as head and tail. */
  lemma WithKeyCons<T>(y: T, t: seq<T>, key: T -> real, c: real)
    ensures WithKey([y] + t, key, c) == (if key(y) == c then [y] else []) + WithKey(t, key, c)
  {
    assert ([y] + t)[1..] == t;
  }

  /** Two pieces commute when one of them is empty. */
  lemma SwapEmpty<T>(a: seq<T>, b: seq<T>, r: seq<T>)
    requires a == [] || b == []
    ensures a + (b + r) == b + (a + r)
  {
  }

  /** Stability: among elements with equal keys the sort keeps the input order. */
  lemma {:induction false} SortByStable<T>(s: seq<T>, key: T -> real, c: real)
    ensures WithKey(SortBy(s, key), key, c) == WithKey(s, key, c)
  {
    if s != [] {
      SortByStable(s[1..], key, c);
      InsertWithKey(s[0], SortBy(s[1..], key), key, c);
      assert ([s[0]] + SortBy(s[1..], key))[1..] == SortBy(s[1..], key);
    }
  }

  /** The head of the sorted sequence is the first element of least key in the input. */
  lemma {:induction false} SortByHeadIsFirstMin<T>(s: seq<T>, key: T -> real)
    requires s != []
    ensures exists i :: IsFirstMin(s, key, i) && SortBy(s, key)[0] == s[i]
  {
    if s[1..] == [] {
      assert IsFirstMin(s, key, 0);
    } else {
      var t := SortBy(s[1..], key);
      SortByHeadIsFirstMin(s[1..], key);
      var i' :| IsFirstMin(s[1..], key, i') && t[0] == s[1..][i'];
      assert SortBy(s, key) == Insert(s[0], t, key);
      if key(s[0]) <= key(t[0]) {
        FirstMinAtHead(s, key, i');
      } else {
        TailHoldsFirstMin(s, key, i');
      }
    }
  }

  /** A head no greater than the least key of the tail is the first least element. */
  lemma FirstMinAtHead<T>(s: seq<T>, key: T -> real, i': int)
    requires s != [] && IsFirstMin(s[1..], key, i') && key(s[0]) <= key(s[1..][i'])
    ensures IsFirstMin(s, key, 0)
  {
    forall j | 1 <= j < |s| ensures key(s[0]) <= key(s[j]) {
      assert s[j] == s[1..][j - 1];
    }
  }

  /** A tail whose least key is below the head's has the first least element of the whole. */
  lemma TailHoldsFirstMin<T>(s: seq<T>, key: T -> real, i': int)
    requires s != [] && IsFirstMin(s[1..], key, i') && key(s[1..][i']) < key(s[0])
    ensures IsFirstMin(s, key, i' + 1)
  {
    forall j | 1 <= j < |s| ensures s[j] == s[1..][j - 1] { }
  }

  /** Python's `s[:k]`, including the negative `k` that counts from the end. */
  function Prefix<T>(s: seq<T>, k: int): (r: seq<T>)
    ensures 0 <= k ==> |r| == if k <= |s| then k else |s|
    ensures k < 0 ==> |r| == if -k <= |s| then |s| + k else 0
    ensures r == s[..|r|]
  {
    if 0 <= k then (if k <= |s| then s[..k] else s)
    else (if -k <= |s| then s[..|s| + k] else [])
  }
}
