/** The stable sort that `Array.prototype.sort` performs on the listing pages, over a numeric
    sort key. Every comparator on those pages is a difference of two keys, so the sort is
    specified by the key: the result is ordered by key, and elements with equal keys keep
    their input order. The order is modelled by insertion sort; `SortCharacterized` shows
    that the two properties determine the result, so any stable sort gives the same output. */
module StableSort {

  /** A sort key: a finite number, or `Last`, which sorts after every finite key. */
  datatype Key = Finite(v: real) | Last

  predicate KeyLe(a: Key, b: Key)
  {
    match a
    case Last => b.Last?
    case Finite(x) => b.Last? || x <= b.v
  }

  /** Where a comparison puts the first of two elements. */
  datatype Order = Before | Tie | After

  /** The order of two keys: strictly smaller goes first, equal keys tie. */
  function KeyOrder(a: Key, b: Key): (o: Order)
    ensures o == Tie <==> a == b
    ensures o == Before <==> KeyLe(a, b) && a != b
    ensures o == After <==> KeyLe(b, a) && a != b
  {
    if a == b then Tie else if KeyLe(a, b) then Before else After
  }

  /** `KeyLe` is a total order. */
  lemma KeyLeTotalOrder(a: Key, b: Key, c: Key)
    ensures KeyLe(a, a)
    ensures KeyLe(a, b) && KeyLe(b, a) ==> a == b
    ensures KeyLe(a, b) && KeyLe(b, c) ==> KeyLe(a, c)
    ensures KeyLe(a, b) || KeyLe(b, a)
  {
  }

  /** Keys never decrease from left to right. */
  predicate Sorted<T>(s: seq<T>, key: T -> Key)
  {
    forall i, j :: 0 <= i < j < |s| ==> KeyLe(key(s[i]), key(s[j]))
  }

  /** The elements of `s` whose key is `k`, in their order in `s`. */
  function KeyClass<T>(s: seq<T>, key: T -> Key, k: Key): seq<T>
  {
    if s == [] then [] else (if key(s[0]) == k then [s[0]] else []) + KeyClass(s[1..], key, k)
  }

  /** Places `x` before the first element whose key is not smaller than its own. */
  function Insert<T>(x: T, s: seq<T>, key: T -> Key): (r: seq<T>)
    ensures |r| == |s| + 1
    ensures multiset(r) == multiset(s) + multiset{x}
  {
    if s == [] then [x]
    else if KeyLe(key(x), key(s[0])) then [x] + s
    else
      assert s == [s[0]] + s[1..];
      [s[0]] + Insert(x, s[1..], key)
  }

  /** The stable sort of `s` by `key`: a permutation of `s` ordered by key. */
  function Sort<T>(s: seq<T>, key: T -> Key): (r: seq<T>)
    ensures multiset(r) == multiset(s)
    ensures Sorted(r, key)
  {
    if s == [] then []
    else
      var rest := Sort(s[1..], key);
      InsertSorted(s[0], rest, key);
      assert s == [s[0]] + s[1..];
      Insert(s[0], rest, key)
  }

  lemma {:induction false} InsertSorted<T>(x: T, s: seq<T>, key: T -> Key)
    requires Sorted(s, key)
    ensures Sorted(Insert(x, s, key), key)
  {
    if s == [] {
    } else if KeyLe(key(x), key(s[0])) {
      forall j | 0 <= j < |s|
        ensures KeyLe(key(x), key(s[j]))
      {
        if j > 0 {
          assert KeyLe(key(s[0]), key(s[j]));
        }
        KeyLeTotalOrder(key(x), key(s[0]), key(s[j]));
      }
      SortedCons(x, s, key);
    } else {
      InsertSorted(x, s[1..], key);
      InsertAfterFirst(x, s, key);
      SortedCons(s[0], Insert(x, s[1..], key), key);
    }
  }

  /** An ordered list stays ordered when an element no larger than any of its keys is put
      in front. */
  lemma SortedCons<T>(h: T, t: seq<T>, key: T -> Key)
    requires Sorted(t, key)
    requires forall j :: 0 <= j < |t| ==> KeyLe(key(h), key(t[j]))
    ensures Sorted([h] + t, key)
  {
    var r := [h] + t;
    forall i, j | 0 <= i < j < |r|
      ensures KeyLe(key(r[i]), key(r[j]))
    {
      assert r[j] == t[j - 1];
      if i > 0 {
        assert r[i] == t[i - 1];
      }
    }
  }

  /** When `x` goes after the head of an ordered list, everything it is inserted among has a
      key no smaller than the head's. */
  lemma InsertAfterFirst<T>(x: T, s: seq<T>, key: T -> Key)
    requires Sorted(s, key) && s != [] && !KeyLe(key(x), key(s[0]))
    ensures forall j :: 0 <= j < |Insert(x, s[1..], key)| ==> KeyLe(key(s[0]), key(Insert(x, s[1..], key)[j]))
  {
    var t := Insert(x, s[1..], key);
    KeyLeTotalOrder(key(x), key(s[0]), key(x));
    forall j | 0 <= j < |t|
      ensures KeyLe(key(s[0]), key(t[j]))
    {
      assert t[j] in multiset(t);
      if t[j] != x {
        assert t[j] in multiset(s[1..]);
        var m :| 0 <= m < |s[1..]| && s[1..][m] == t[j];
        assert s[m + 1] == t[j];
      }
    }
  }

  /** Inserting `x` adds it at the front of its key class and leaves every other class alone:
      the elements it passes all have strictly smaller keys. */
  lemma {:induction false} InsertClass<T>(x: T, s: seq<T>, key: T -> Key, k: Key)
    ensures KeyClass(Insert(x, s, key), key, k) == (if key(x) == k then [x] else []) + KeyClass(s, key, k)
  {
    var r := Insert(x, s, key);
    if s == [] {
      assert r == [x];
      assert r[1..] == [];
    } else if KeyLe(key(x), key(s[0])) {
      assert r == [x] + s;
      assert r[1..] == s;
    } else {
      assert r == [s[0]] + Insert(x, s[1..], key);
      assert r[1..] == Insert(x, s[1..], key);
      InsertClass(x, s[1..], key, k);
      KeyLeTotalOrder(key(x), key(s[0]), key(x));
    }
  }

  /** Stability: within every key class, the sorted sequence keeps the input order. */
  lemma {:induction false} SortStable<T>(s: seq<T>, key: T -> Key, k: Key)
    ensures KeyClass(Sort(s, key), key, k) == KeyClass(s, key, k)
  {
    if s != [] {
      SortStable(s[1..], key, k);
      InsertClass(s[0], Sort(s[1..], key), key, k);
    }
  }

  /** The members of a key class are exactly the elements of `s` with that key. */
  lemma {:induction false} KeyClassMembers<T>(s: seq<T>, key: T -> Key, k: Key, y: T)
    ensures y in KeyClass(s, key, k) <==> y in s && key(y) == k
  {
    if s != [] {
      KeyClassMembers(s[1..], key, k, y);
      assert s == [s[0]] + s[1..];
    }
  }

  /** The head of a sequence belongs to its own key class. */
  lemma KeyClassOfHead<T>(s: seq<T>, key: T -> Key)
    requires s != []
    ensures KeyClass(s, key, key(s[0])) != []
  {
  }

  /** Two sequences that are both sorted and agree on every key class are equal. */
  lemma {:induction false} SortedClassesDetermine<T>(a: seq<T>, b: seq<T>, key: T -> Key)
    requires Sorted(a, key) && Sorted(b, key)
    requires forall k :: KeyClass(a, key, k) == KeyClass(b, key, k)
    ensures a == b
    decreases |a|
  {
    if a == [] && b != [] {
      KeyClassOfHead(b, key);
      assert false;
    } else if a != [] && b == [] {
      KeyClassOfHead(a, key);
      assert false;
    } else if a != [] {
      var ka, kb := key(a[0]), key(b[0]);
      KeyClassMembers(b, key, kb, b[0]);
      KeyClassMembers(a, key, kb, b[0]);
      var i :| 0 <= i < |a| && a[i] == b[0];
      KeyLeTotalOrder(ka, ka, kb);
      assert KeyLe(ka, kb);
      KeyClassMembers(a, key, ka, a[0]);
      KeyClassMembers(b, key, ka, a[0]);
      var j :| 0 <= j < |b| && b[j] == a[0];
      KeyLeTotalOrder(kb, kb, ka);
      assert KeyLe(kb, ka);
      KeyLeTotalOrder(ka, kb, ka);
      assert ka == kb;
      assert KeyClass(a, key, ka) == [a[0]] + KeyClass(a[1..], key, ka);
      assert KeyClass(b, key, ka) == [b[0]] + KeyClass(b[1..], key, ka);
      assert KeyClass(a, key, ka) == KeyClass(b, key, ka);
      assert a[0] == KeyClass(a, key, ka)[0] == KeyClass(b, key, ka)[0] == b[0];
      forall k
        ensures KeyClass(a[1..], key, k) == KeyClass(b[1..], key, k)
      {
        assert KeyClass(a, key, k) == KeyClass(b, key, k);
        if k == ka {
          assert KeyClass(a[1..], key, k) == KeyClass(a, key, k)[1..];
          assert KeyClass(b[1..], key, k) == KeyClass(b, key, k)[1..];
        } else {
          assert KeyClass(a[1..], key, k) == KeyClass(a, key, k);
          assert KeyClass(b[1..], key, k) == KeyClass(b, key, k);
        }
      }
      SortedClassesDetermine(a[1..], b[1..], key);
      assert a == [a[0]] + a[1..];
      assert b == [b[0]] + b[1..];
    }
  }

  /** The stable sort is characterised by its two properties: a sequence is `Sort(s, key)`
      exactly when it is ordered by key and every key class keeps its order from `s`. */
  lemma SortCharacterized<T>(s: seq<T>, r: seq<T>, key: T -> Key)
    ensures r == Sort(s, key) ==> Sorted(r, key) && forall k :: KeyClass(r, key, k) == KeyClass(s, key, k)
    ensures Sorted(r, key) && (forall k :: KeyClass(r, key, k) == KeyClass(s, key, k)) ==> r == Sort(s, key)
  {
    var t := Sort(s, key);
    forall k
      ensures KeyClass(t, key, k) == KeyClass(s, key, k)
    {
      SortStable(s, key, k);
    }
    if Sorted(r, key) && forall k :: KeyClass(r, key, k) == KeyClass(s, key, k) {
      SortedClassesDetermine(r, t, key);
    }
  }

  /** No two different elements of `s` share a key. */
  ghost predicate NoTies<T(!new)>(s: seq<T>, key: T -> Key)
  {
    forall x, y :: x in s && y in s && key(x) == key(y) ==> x == y
  }

  /** Without ties there is only one ordered arrangement of a collection. */
  lemma {:induction false} SortedPermutationUnique<T(!new)>(a: seq<T>, b: seq<T>, key: T -> Key)
    requires Sorted(a, key) && Sorted(b, key)
    requires multiset(a) == multiset(b) && NoTies(a, key)
    ensures a == b
    decreases |a|
  {
    assert |a| == |multiset(a)| == |multiset(b)| == |b|;
    if a != [] {
      assert b[0] in multiset(a) && a[0] in multiset(b);
      var i :| 0 <= i < |a| && a[i] == b[0];
      var j :| 0 <= j < |b| && b[j] == a[0];
      assert KeyLe(key(a[0]), key(a[i]));
      assert KeyLe(key(b[0]), key(b[j]));
      KeyLeTotalOrder(key(a[0]), key(b[0]), key(a[0]));
      assert a[0] == b[0];
      TailMultiset(a, b);
      assert forall x :: x in a[1..] ==> x in a;
      SortedPermutationUnique(a[1..], b[1..], key);
    }
  }

  lemma TailMultiset<T>(a: seq<T>, b: seq<T>)
    requires a != [] && b != [] && a[0] == b[0] && multiset(a) == multiset(b)
    ensures multiset(a[1..]) == multiset(b[1..])
  {
    assert a == [a[0]] + a[1..] && b == [b[0]] + b[1..];
    assert multiset(a) == multiset{a[0]} + multiset(a[1..]);
    assert multiset(b) == multiset{b[0]} + multiset(b[1..]);
    assert multiset(a[1..]) == multiset(a) - multiset{a[0]};
    assert multiset(b[1..]) == multiset(b) - multiset{b[0]};
  }

  /** Without ties, every ordered permutation of `s` is its stable sort. */
  lemma SortNoTies<T(!new)>(s: seq<T>, r: seq<T>, key: T -> Key)
    requires Sorted(r, key) && multiset(r) == multiset(s) && NoTies(s, key)
    ensures r == Sort(s, key)
  {
    assert forall x :: x in r <==> x in s by {
      forall x
        ensures x in r <==> x in s
      {
        assert x in r <==> x in multiset(r);
        assert x in s <==> x in multiset(s);
      }
    }
    SortedPermutationUnique(r, Sort(s, key), key);
  }

  /** `s` read from the end. */
  function Reverse<T>(s: seq<T>): (r: seq<T>)
    ensures |r| == |s| && forall i :: 0 <= i < |s| ==> r[i] == s[|s| - 1 - i]
    ensures multiset(r) == multiset(s)
  {
    if s == [] then []
    else
      assert s == [s[0]] + s[1..];
      Reverse(s[1..]) + [s[0]]
  }
}
