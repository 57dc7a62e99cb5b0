/**
  Shared vocabulary of the model: an Option type, 2-D points with exact
  real coordinates, Python's slicing helpers, numpy's concatenate, and
  Python's stable `sorted(..., key=...)`.
*/
module Common {

  datatype Option<T> = None | Some(value: T)

  /** A result, or the `ZeroDivisionError` Python raises on a division by zero. */
  datatype Outcome<T> = Returned(value: T) | ZeroDivisionError

  /** A point (x, y) in image coordinates. */
  datatype Point = Point(x: real, y: real)

  /** The sort keys `getX`, `getY` and their negations, for `reverse=True`. */
  function GetX(p: Point): real { p.x }
  function GetY(p: Point): real { p.y }
  function NegX(p: Point): real { -p.x }
  function NegY(p: Point): real { -p.y }

  function Abs(r: real): (a: real)
    ensures a >= 0.0
    ensures a == r || a == -r
  {
    if r < 0.0 then -r else r
  }

  function Min(a: real, b: real): (m: real)
    ensures m <= a && m <= b
    ensures m == a || m == b
  {
    if a <= b then a else b
  }

  function Max(a: real, b: real): (m: real)
    ensures m >= a && m >= b
    ensures m == a || m == b
  {
    if a >= b then a else b
  }

  /** Squared Euclidean distance; it orders points exactly as the distance does. */
  function SqDist(p: Point, q: Point): (d: real)
    ensures d >= 0.0
  {
    (p.x - q.x) * (p.x - q.x) + (p.y - q.y) * (p.y - q.y)
  }

  /** Python's `s[:n]`: never fails, shorter sequences are kept whole. */
  function Take<T>(s: seq<T>, n: nat): (r: seq<T>)
    ensures |r| == if |s| <= n then |s| else n
    ensures r <= s
  {
    if |s| <= n then s else s[..n]
  }

  /** Python's `s[n:]`. */
  function Drop<T>(s: seq<T>, n: nat): (r: seq<T>)
    ensures |r| == if |s| <= n then 0 else |s| - n
    ensures Take(s, n) + r == s
  {
    if |s| <= n then [] else s[n..]
  }

  /** numpy's `concatenate` over a list of point lists. */
  function Concat<T>(ss: seq<seq<T>>): (r: seq<T>)
  {
    if ss == [] then [] else ss[0] + Concat(ss[1..])
  }

  /** Every concatenated list contributes exactly its own length. */
  lemma {:induction false} ConcatLength<T>(ss: seq<seq<T>>, n: nat)
    requires forall i :: 0 <= i < |ss| ==> |ss[i]| == n
    ensures |Concat(ss)| == n * |ss|
  {
    if ss != [] {
      ConcatLength(ss[1..], n);
    }
  }

  lemma {:induction false} ConcatAppend<T>(ss: seq<seq<T>>, t: seq<T>)
    ensures Concat(ss + [t]) == Concat(ss) + t
  {
    if ss == [] {
      assert ss + [t] == [t];
    } else {
      assert (ss + [t])[1..] == ss[1..] + [t];
      ConcatAppend(ss[1..], t);
    }
  }

  /** The elements of a concatenation, as a multiset. */
  function ConcatBag<T>(ss: seq<seq<T>>): multiset<T>
  {
    if ss == [] then multiset{} else multiset(ss[0]) + ConcatBag(ss[1..])
  }

  lemma {:induction false} ConcatBagIsMultiset<T>(ss: seq<seq<T>>)
    ensures multiset(Concat(ss)) == ConcatBag(ss)
  {
    if ss != [] {
      ConcatBagIsMultiset(ss[1..]);
    }
  }

  // ---------------------------------------------------------------------
  // Python's `sorted(s, key=key)`: a stable sort. `reverse=True` is the
  // same sort on the negated key, since Python keeps equal elements in
  // their original order in both directions.
  // ---------------------------------------------------------------------

  predicate SortedBy<T>(s: seq<T>, key: T -> real)
  {
    forall i, j :: 0 <= i < j < |s| ==> key(s[i]) <= key(s[j])
  }

  /** Inserts `x` in front of the first element whose key is not smaller. */
  function Insert<T>(x: T, s: seq<T>, key: T -> real): seq<T>
  {
    if s == [] || key(x) <= key(s[0]) then [x] + s else [s[0]] + Insert(x, s[1..], key)
  }

  /** Insertion adds `x` and keeps every other element. */
  lemma {:induction false} InsertElements<T>(x: T, s: seq<T>, key: T -> real)
    ensures |Insert(x, s, key)| == |s| + 1
    ensures multiset(Insert(x, s, key)) == multiset(s) + multiset{x}
    ensures forall i :: 0 <= i < |Insert(x, s, key)| ==> Insert(x, s, key)[i] == x || Insert(x, s, key)[i] in s
  {
    if s != [] && key(s[0]) < key(x) {
      InsertElements(x, s[1..], key);
      assert s == [s[0]] + s[1..];
    }
  }

  /** Stable insertion sort: the model of Python's `sorted`. */
  function SortBy<T>(s: seq<T>, key: T -> real): (r: seq<T>)
    ensures |r| == |s|
    ensures SortedBy(r, key)
  {
    if s == [] then []
    else
      InsertSorted(s[0], SortBy(s[1..], key), key);
      InsertElements(s[0], SortBy(s[1..], key), key);
      Insert(s[0], SortBy(s[1..], key), key)
  }

  /** Sorting only reorders: the result is a permutation of the input. */
  lemma {:induction false} SortByBag<T>(s: seq<T>, key: T -> real)
    ensures multiset(SortBy(s, key)) == multiset(s)
  {
    if s != [] {
      SortByBag(s[1..], key);
      InsertElements(s[0], SortBy(s[1..], key), key);
      assert s == [s[0]] + s[1..];
    }
  }

  lemma {:induction false} InsertSorted<T>(x: T, s: seq<T>, key: T -> real)
    requires SortedBy(s, key)
    ensures SortedBy(Insert(x, s, key), key)
  {
    InsertElements(x, s, key);
    if s != [] && key(s[0]) < key(x) {
      var t := s[1..];
      assert SortedBy(t, key);
      InsertSorted(x, t, key);
      InsertElements(x, t, key);
      var rest := Insert(x, t, key);
      var r := [s[0]] + rest;
      assert r == Insert(x, s, key);
      forall j | 0 < j < |r|
        ensures key(r[0]) <= key(r[j])
      {
        assert r[j] == rest[j - 1];
        assert rest[j - 1] == x || rest[j - 1] in t;
      }
    }
  }

  /** The subsequence of the elements whose key equals `k`. */
  function KeyClass<T>(s: seq<T>, key: T -> real, k: real): seq<T>
  {
    if s == [] then [] else (if key(s[0]) == k then [s[0]] else []) + KeyClass(s[1..], key, k)
  }

  lemma {:induction false} InsertKeyClass<T>(x: T, s: seq<T>, key: T -> real, k: real)
    ensures KeyClass(Insert(x, s, key), key, k)
         == (if key(x) == k then [x] else []) + KeyClass(s, key, k)
  {
    if s == [] || key(x) <= key(s[0]) {
      var r := [x] + s;
      assert Insert(x, s, key) == r;
      assert r[0] == x && r[1..] == s;
    } else {
      var rest := Insert(x, s[1..], key);
      var r := [s[0]] + rest;
      assert Insert(x, s, key) == r;
      assert r[0] == s[0] && r[1..] == rest;
      InsertKeyClass(x, s[1..], key, k);
      assert KeyClass(s, key, k) == (if key(s[0]) == k then [s[0]] else []) + KeyClass(s[1..], key, k);
    }
  }

  /** Stability: elements with equal keys keep their original order. */
  lemma {:induction false} SortByStable<T>(s: seq<T>, key: T -> real, k: real)
    ensures KeyClass(SortBy(s, key), key, k) == KeyClass(s, key, k)
  {
    if s != [] {
      SortByStable(s[1..], key, k);
      InsertKeyClass(s[0], SortBy(s[1..], key), key, k);
    }
  }

  /** When every key is equal the stable sort changes nothing. */
  lemma {:induction false} SortByConstantKey<T>(s: seq<T>, key: T -> real)
    requires forall i :: 0 <= i < |s| ==> key(s[i]) == key(s[0])
    ensures SortBy(s, key) == s
  {
    if s != [] {
      var t := s[1..];
      assert forall i :: 0 <= i < |t| ==> key(t[i]) == key(t[0]) by {
        if |t| > 0 {
          assert key(t[0]) == key(s[0]);
        }
      }
      SortByConstantKey(t, key);
      assert s == [s[0]] + t;
    }
  }

  /** A sorted list that already is in order is returned unchanged. */
  lemma {:induction false} SortBySorted<T>(s: seq<T>, key: T -> real)
    requires SortedBy(s, key)
    ensures SortBy(s, key) == s
  {
    if s != [] {
      var t := s[1..];
      assert SortedBy(t, key);
      SortBySorted(t, key);
      assert s == [s[0]] + t;
    }
  }

  /** The first element of a sorted permutation carries the least key. */
  lemma SortedHeadIsLeast<T>(s: seq<T>, key: T -> real, e: T)
    requires e in s
    ensures key(SortBy(s, key)[0]) <= key(e)
  {
    var r := SortBy(s, key);
    SortByBag(s, key);
    assert e in multiset(r);
    var j :| 0 <= j < |r| && r[j] == e;
    if j > 0 {
      assert key(r[0]) <= key(r[j]);
    }
  }

  /** Two keys that order every pair of elements alike give the same stable sort. */
  lemma {:induction false} SortBySameOrder<T>(s: seq<T>, k1: T -> real, k2: T -> real)
    requires forall a, b :: k1(a) <= k1(b) <==> k2(a) <= k2(b)
    ensures SortBy(s, k1) == SortBy(s, k2)
  {
    if s != [] {
      SortBySameOrder(s[1..], k1, k2);
      InsertSameOrder(s[0], SortBy(s[1..], k1), k1, k2);
    }
  }

  lemma {:induction false} InsertSameOrder<T>(x: T, s: seq<T>, k1: T -> real, k2: T -> real)
    requires forall a, b :: k1(a) <= k1(b) <==> k2(a) <= k2(b)
    ensures Insert(x, s, k1) == Insert(x, s, k2)
  {
    if s != [] {
      InsertSameOrder(x, s[1..], k1, k2);
      assert k1(x) <= k1(s[0]) <==> k2(x) <= k2(s[0]);
    }
  }
}
