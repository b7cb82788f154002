/** `Array.prototype.sort((a, b) => key(b) - key(a))`: a stable sort into
    descending order of an integer key (the ECMAScript specification requires
    `sort` to be stable). Modelled as insertion sort, which is the reference. */
module StableSort {
  import opened Seqs

  predicate SortedDesc<T>(s: seq<T>, key: T -> int)
  {
    forall i, j :: 0 <= i < j < |s| ==> key(s[i]) >= key(s[j])
  }

  /** Puts `x` in front of the first element whose key is not greater than its own. */
  function InsertDesc<T>(x: T, s: seq<T>, key: T -> int): (r: seq<T>)
    ensures |r| == |s| + 1
    ensures multiset(r) == multiset(s) + multiset{x}
  {
    if s == [] then [x]
    else if key(x) >= key(s[0]) then [x] + s
    else
      assert s == [s[0]] + s[1..];
      [s[0]] + InsertDesc(x, s[1..], key)
  }

  /** No key in `s` exceeds `b`. */
  predicate Acotada<T>(s: seq<T>, key: T -> int, b: int)
  {
    forall i :: 0 <= i < |s| ==> key(s[i]) <= b
  }

  /** A head bounding a descending tail gives a descending sequence. */
  lemma SortedCons<T>(h: T, t: seq<T>, key: T -> int)
    requires SortedDesc(t, key) && Acotada(t, key, key(h))
    ensures SortedDesc([h] + t, key)
  {
    var r := [h] + t;
    forall i, j | 0 <= i < j < |r| ensures key(r[i]) >= key(r[j]) {
      assert r[j] == t[j - 1];
      if i > 0 {
        assert r[i] == t[i - 1];
      }
    }
  }

  /** Insertion keeps every key under a bound that `x` and `s` respect. */
  lemma {:induction false} InsertDescAcotada<T>(x: T, s: seq<T>, key: T -> int, b: int)
    requires Acotada(s, key, b) && key(x) <= b
    ensures Acotada(InsertDesc(x, s, key), key, b)
  {
    var r := InsertDesc(x, s, key);
    if s == [] {
      assert r == [x];
    } else if key(x) >= key(s[0]) {
      assert r == [x] + s;
      forall i | 0 <= i < |r| ensures key(r[i]) <= b {
        if i > 0 {
          assert r[i] == s[i - 1];
        }
      }
    } else {
      var t := InsertDesc(x, s[1..], key);
      assert Acotada(s[1..], key, b) by {
        forall i | 0 <= i < |s[1..]| ensures key(s[1..][i]) <= b {
          assert s[1..][i] == s[i + 1];
        }
      }
      InsertDescAcotada(x, s[1..], key, b);
      assert r == [s[0]] + t;
      forall i | 0 <= i < |r| ensures key(r[i]) <= b {
        if i > 0 {
          assert r[i] == t[i - 1];
        }
      }
    }
  }

  /** A descending sequence is bounded by its head and its tail is descending. */
  lemma SortedTail<T>(s: seq<T>, key: T -> int)
    requires s != [] && SortedDesc(s, key)
    ensures SortedDesc(s[1..], key) && Acotada(s[1..], key, key(s[0]))
  {
    forall i | 0 <= i < |s[1..]| ensures key(s[1..][i]) <= key(s[0]) {
      assert s[1..][i] == s[i + 1];
    }
  }

  /** Insertion keeps a descending sequence descending. */
  lemma {:induction false} InsertDescSorted<T>(x: T, s: seq<T>, key: T -> int)
    requires SortedDesc(s, key)
    ensures SortedDesc(InsertDesc(x, s, key), key)
  {
    if s == [] {
      assert InsertDesc(x, s, key) == [x];
    } else if key(x) >= key(s[0]) {
      assert InsertDesc(x, s, key) == [x] + s;
      assert Acotada(s, key, key(x));
      SortedCons(x, s, key);
    } else {
      var t := InsertDesc(x, s[1..], key);
      SortedTail(s, key);
      InsertDescSorted(x, s[1..], key);
      InsertDescAcotada(x, s[1..], key, key(s[0]));
      SortedCons(s[0], t, key);
      assert InsertDesc(x, s, key) == [s[0]] + t;
    }
  }

  function SortDesc<T>(s: seq<T>, key: T -> int): (r: seq<T>)
    ensures |r| == |s|
    ensures multiset(r) == multiset(s)
    ensures SortedDesc(r, key)
  {
    if s == [] then []
    else
      assert s == [s[0]] + s[1..];
      var resto := SortDesc(s[1..], key);
      InsertDescSorted(s[0], resto, key);
      InsertDesc(s[0], resto, key)
  }

  /** The elements whose key is `k`. */
  function ConClave<T>(key: T -> int, k: int): T -> bool
  {
    y => key(y) == k
  }

  /** Filtering commutes with moving `s0` in front of an element it
      cannot share the filter with. */
  lemma {:induction false} FilterAdelante<T>(s0: T, x: T, t: seq<T>, resto: seq<T>, p: T -> bool)
    requires !(p(x) && p(s0))
    requires Filter(t, p) == (if p(x) then [x] else []) + Filter(resto, p)
    ensures Filter([s0] + t, p) == (if p(x) then [x] else []) + Filter([s0] + resto, p)
  {
    var fx: seq<T> := if p(x) then [x] else [];
    var f0: seq<T> := if p(s0) then [s0] else [];
    var fr := Filter(resto, p);
    FilterCons(s0, t, p);
    FilterCons(s0, resto, p);
    assert Filter([s0] + t, p) == f0 + (fx + fr);
    assert Filter([s0] + resto, p) == f0 + fr;
    assert fx == [] || f0 == [];
  }

  /** Elements of key `k` keep their relative order through an insertion. */
  lemma {:induction false} InsertDescStable<T>(x: T, s: seq<T>, key: T -> int, k: int)
    ensures Filter(InsertDesc(x, s, key), ConClave(key, k))
         == (if key(x) == k then [x] else []) + Filter(s, ConClave(key, k))
  {
    var p := ConClave(key, k);
    if s == [] {
      FilterCons(x, [], p);
      assert [x] + [] == [x];
    } else if key(x) >= key(s[0]) {
      FilterCons(x, s, p);
    } else {
      var t := InsertDesc(x, s[1..], key);
      assert InsertDesc(x, s, key) == [s[0]] + t;
      InsertDescStable(x, s[1..], key, k);
      FilterAdelante(s[0], x, t, s[1..], p);
      assert s == [s[0]] + s[1..];
    }
  }

  /** Stability: the elements with any one key appear in the sorted result in
      exactly the order they had before. */
  lemma {:induction false} SortDescStable<T>(s: seq<T>, key: T -> int, k: int)
    ensures Filter(SortDesc(s, key), ConClave(key, k)) == Filter(s, ConClave(key, k))
  {
    if s != [] {
      SortDescStable(s[1..], key, k);
      InsertDescStable(s[0], SortDesc(s[1..], key), key, k);
    }
  }

  /** A sequence already in descending order is left as it is. */
  lemma {:induction false} SortDescOfSorted<T>(s: seq<T>, key: T -> int)
    requires SortedDesc(s, key)
    ensures SortDesc(s, key) == s
  {
    if s != [] {
      assert SortedDesc(s[1..], key);
      SortDescOfSorted(s[1..], key);
      if |s| > 1 {
        assert key(s[0]) >= key(s[1]);
      }
    }
  }
}
